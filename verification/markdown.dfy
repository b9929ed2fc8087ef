/**
 The Razorpay handler's `escapeMarkdownV2`: a global regular-expression
 replace that puts a backslash in front of every character Telegram's
 MarkdownV2 treats as markup, applied to the whole outgoing message.
 */
module MarkdownV2 {

  /** The character class of the replace pattern: _ * [ ] ( ) ~ ` > # + - = | { } . ! and backslash. */
  predicate IsSpecial(c: char) {
    c in {'_', '*', '[', ']', '(', ')', '~', '`', '>', '#', '+', '-', '=', '|', '{', '}', '.', '!', '\\'}
  }

  /** How many characters of `s` the pattern matches. */
  function CountSpecial(s: string): nat
    decreases |s|
  {
    if |s| == 0 then 0 else (if IsSpecial(s[0]) then 1 else 0) + CountSpecial(s[1..])
  }

  /** `escapeMarkdownV2(s)`: each special character becomes backslash plus itself. */
  function Escape(s: string): (r: string)
    ensures |r| == |s| + CountSpecial(s)
    decreases |s|
  {
    if |s| == 0 then ""
    else (if IsSpecial(s[0]) then ['\\', s[0]] else [s[0]]) + Escape(s[1..])
  }

  /** Drops every escaping backslash, keeping the character it escapes. */
  function Unescape(t: string): string
    decreases |t|
  {
    if |t| == 0 then ""
    else if t[0] == '\\' && |t| >= 2 then [t[1]] + Unescape(t[2..])
    else [t[0]] + Unescape(t[1..])
  }

  /** Removing the escaping backslashes gives back the original text. */
  lemma {:induction false} UnescapeEscape(s: string)
    ensures Unescape(Escape(s)) == s
    decreases |s|
  {
    if |s| > 0 {
      UnescapeEscape(s[1..]);
      var t := Escape(s);
      if IsSpecial(s[0]) {
        assert t[2..] == Escape(s[1..]);
      } else {
        assert t[1..] == Escape(s[1..]);
      }
    }
  }

  /** Escaping is injective: different texts never produce the same message. */
  lemma EscapeInjective(a: string, b: string)
    requires Escape(a) == Escape(b)
    ensures a == b
  {
    UnescapeEscape(a);
    UnescapeEscape(b);
  }

  /** Escaping leaves a text unchanged exactly when it has no special character. */
  lemma {:induction false} EscapeIdentity(s: string)
    ensures Escape(s) == s <==> CountSpecial(s) == 0
    decreases |s|
  {
    if |s| > 0 {
      EscapeIdentity(s[1..]);
      if CountSpecial(s) == 0 {
        assert Escape(s) == [s[0]] + s[1..];
      }
    }
  }

  /** Escaping works character by character, so it distributes over concatenation. */
  lemma {:induction false} EscapeAppend(a: string, b: string)
    ensures Escape(a + b) == Escape(a) + Escape(b)
    decreases |a|
  {
    if |a| > 0 {
      assert (a + b)[1..] == a[1..] + b;
      EscapeAppend(a[1..], b);
    } else {
      assert a + b == b;
    }
  }

  /** In the escaped text, every special character sits right after a backslash
      that belongs to it; no markup character reaches the chat unescaped. */
  lemma {:induction false} EscapedSpecialsArePaired(s: string)
    ensures forall i :: 0 <= i < |s| && IsSpecial(s[i]) ==>
      Escape(s)[PositionOf(s, i)] == '\\' && Escape(s)[PositionOf(s, i) + 1] == s[i]
    ensures forall i :: 0 <= i < |s| && !IsSpecial(s[i]) ==> Escape(s)[PositionOf(s, i)] == s[i]
    decreases |s|
  {
    if |s| > 0 {
      EscapedSpecialsArePaired(s[1..]);
      var head := if IsSpecial(s[0]) then ['\\', s[0]] else [s[0]];
      assert Escape(s) == head + Escape(s[1..]);
      forall i | 1 <= i < |s|
        ensures PositionOf(s, i) == |head| + PositionOf(s[1..], i - 1)
      {
        PositionShift(s, i);
      }
    }
  }

  /** Where the character `s[i]` (or its escaping backslash) lands in `Escape(s)`. */
  function PositionOf(s: string, i: int): (p: nat)
    requires 0 <= i < |s|
    ensures p + (if IsSpecial(s[i]) then 2 else 1) <= |Escape(s)|
  {
    CountPrefixBound(s, i);
    i + CountSpecial(s[..i])
  }

  lemma CountPrefixBound(s: string, i: int)
    requires 0 <= i < |s|
    ensures i + CountSpecial(s[..i]) + (if IsSpecial(s[i]) then 2 else 1) <= |s| + CountSpecial(s)
  {
    assert s == s[..i] + s[i..];
    CountAppend(s[..i], s[i..]);
    assert s[i..][1..] == s[i + 1..];
  }

  lemma {:induction false} CountAppend(a: string, b: string)
    ensures CountSpecial(a + b) == CountSpecial(a) + CountSpecial(b)
    decreases |a|
  {
    if |a| > 0 {
      assert (a + b)[1..] == a[1..] + b;
      CountAppend(a[1..], b);
    } else {
      assert a + b == b;
    }
  }

  lemma PositionShift(s: string, i: int)
    requires 1 <= i < |s|
    ensures PositionOf(s, i) == (if IsSpecial(s[0]) then 2 else 1) + PositionOf(s[1..], i - 1)
  {
    assert s[..i] == [s[0]] + s[1..][..i - 1];
    CountAppend([s[0]], s[1..][..i - 1]);
  }
}
