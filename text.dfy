/** String operations the chatbot service borrows from Python's `str`:
    `''.join`, `str.strip`, `str.lower` and the `in` substring test. */
module Text {

  /** `''.join(parts)`: the parts glued together in order. */
  function Concat(parts: seq<string>): string
  {
    if |parts| == 0 then "" else Concat(parts[..|parts| - 1]) + parts[|parts| - 1]
  }

  /** Joining two lists is joining their joins. */
  lemma {:induction false} ConcatAppend(a: seq<string>, b: seq<string>)
    ensures Concat(a + b) == Concat(a) + Concat(b)
  {
    if |b| == 0 {
      assert a + b == a;
    } else {
      var b', last := b[..|b| - 1], b[|b| - 1];
      assert (a + b)[..|a + b| - 1] == a + b';
      assert (a + b)[|a + b| - 1] == last;
      assert Concat(a + b) == Concat(a + b') + last;
      ConcatAppend(a, b');
      assert Concat(a) + Concat(b') + last == Concat(a) + (Concat(b') + last);
    }
  }

  /** The characters for which Python's `str.isspace()` is true. */
  predicate IsSpace(c: char)
  {
    || c == ' ' || c == '\t' || c == '\n' || c == '\r'
    || c == '\U{000B}' || c == '\U{000C}'
    || ('\U{001C}' <= c <= '\U{001F}')
    || c == '\U{0085}' || c == '\U{00A0}' || c == '\U{1680}'
    || ('\U{2000}' <= c <= '\U{200A}')
    || c == '\U{2028}' || c == '\U{2029}' || c == '\U{202F}'
    || c == '\U{205F}' || c == '\U{3000}'
  }

  predicate AllSpace(s: string)
  {
    forall i :: 0 <= i < |s| ==> IsSpace(s[i])
  }

  function StripLeading(s: string): string
  {
    if |s| > 0 && IsSpace(s[0]) then StripLeading(s[1..]) else s
  }

  function StripTrailing(s: string): string
  {
    if |s| > 0 && IsSpace(s[|s| - 1]) then StripTrailing(s[..|s| - 1]) else s
  }

  /** `s.strip()` with no argument: whitespace removed at both ends. */
  function Strip(s: string): string
  {
    StripTrailing(StripLeading(s))
  }

  lemma {:induction false} StripLeadingIsSuffix(s: string)
    ensures var r := StripLeading(s);
      && |r| <= |s| && r == s[|s| - |r|..]
      && AllSpace(s[..|s| - |r|])
      && (r != [] ==> !IsSpace(r[0]))
  {
    if |s| > 0 && IsSpace(s[0]) {
      StripLeadingIsSuffix(s[1..]);
      var r := StripLeading(s[1..]);
      assert s[1..][|s| - 1 - |r|..] == s[|s| - |r|..];
      var cut := s[..|s| - |r|];
      forall i | 0 <= i < |cut| ensures IsSpace(cut[i]) {
        if i > 0 {
          assert cut[i] == s[1..][..|s| - 1 - |r|][i - 1];
        }
      }
    }
  }

  lemma {:induction false} StripTrailingIsPrefix(s: string)
    ensures var r := StripTrailing(s);
      && |r| <= |s| && r == s[..|r|]
      && AllSpace(s[|r|..])
      && (r != [] ==> !IsSpace(r[|r| - 1]))
  {
    if |s| > 0 && IsSpace(s[|s| - 1]) {
      var s' := s[..|s| - 1];
      StripTrailingIsPrefix(s');
      var r := StripTrailing(s');
      assert s'[..|r|] == s[..|r|];
      forall i | 0 <= i < |s| - |r| ensures IsSpace(s[|r|..][i]) {
        if i < |s| - 1 - |r| {
          assert s[|r|..][i] == s'[|r|..][i];
        }
      }
    }
  }

  /** `r` is `s` with only whitespace cut off at either end, and neither
      starts nor ends with whitespace. */
  ghost predicate IsTrimmedSliceOf(r: string, s: string)
  {
    && (r != [] ==> !IsSpace(r[0]) && !IsSpace(r[|r| - 1]))
    && exists lo :: TrimmedAt(r, s, lo)
  }

  predicate TrimmedAt(r: string, s: string, lo: int)
  {
    0 <= lo && lo + |r| <= |s| && r == s[lo..lo + |r|]
    && AllSpace(s[..lo]) && AllSpace(s[lo + |r|..])
  }

  /** `s.strip()` is the slice of `s` between its leading and trailing
      whitespace. */
  lemma StripIsTrimmedSlice(s: string)
    ensures IsTrimmedSliceOf(Strip(s), s)
  {
    var m := StripLeading(s);
    StripLeadingIsSuffix(s);
    StripTrailingIsPrefix(m);
    var r := StripTrailing(m);
    var lo := |s| - |m|;
    assert r == s[lo..lo + |r|];
    assert s[lo + |r|..] == m[|r|..];
    assert TrimmedAt(r, s, lo);
  }

  /** `s.strip()` is empty exactly when `s` is all whitespace. */
  lemma StripEmptyIff(s: string)
    ensures Strip(s) == "" <==> AllSpace(s)
  {
    StripIsTrimmedSlice(s);
    var r := Strip(s);
    if r == "" {
      var lo :| TrimmedAt(r, s, lo);
      forall i | 0 <= i < |s| ensures IsSpace(s[i]) {
        if i < lo { assert s[i] == s[..lo][i]; } else { assert s[i] == s[lo..][i - lo]; }
      }
    }
  }

  /** `str.lower()` on one character, for the letters a Vietnamese message
      uses: ASCII, Latin-1, the six letters of Latin Extended-A and -B in
      the Vietnamese alphabet, and the Vietnamese block U+1EA0..U+1EF9,
      where each upper-case letter is followed by its lower-case form. */
  function LowerChar(c: char): char
  {
    if 'A' <= c <= 'Z' then (c as int + 32) as char
    else if '\U{00C0}' <= c <= '\U{00DE}' && c != '\U{00D7}' then (c as int + 32) as char
    else if c == '\U{0102}' || c == '\U{0110}' || c == '\U{0128}' || c == '\U{0168}'
         || c == '\U{01A0}' || c == '\U{01AF}' then (c as int + 1) as char
    else if '\U{1EA0}' <= c <= '\U{1EF9}' && (c as int) % 2 == 0 then (c as int + 1) as char
    else c
  }

  /** `s.lower()`, character by character. */
  function Lower(s: string): (r: string)
    ensures |r| == |s|
    ensures forall i :: 0 <= i < |s| ==> r[i] == LowerChar(s[i])
  {
    seq(|s|, i requires 0 <= i < |s| => LowerChar(s[i]))
  }

  /** Lower-casing a lower-case letter leaves it as it is. */
  lemma LowerCharIdempotent(c: char)
    ensures LowerChar(LowerChar(c)) == LowerChar(c)
  {
  }

  /** Lower-casing twice is lower-casing once. */
  lemma LowerIdempotent(s: string)
    ensures Lower(Lower(s)) == Lower(s)
  {
    forall i | 0 <= i < |s| ensures Lower(Lower(s))[i] == Lower(s)[i] {
      LowerCharIdempotent(s[i]);
    }
  }

  /** `key` occurs in `s` starting at index `i`. */
  predicate OccursAt(s: string, key: string, i: int)
  {
    0 <= i && i + |key| <= |s| && s[i..i + |key|] == key
  }

  /** Python's `key in s`, scanning from the left. */
  predicate Contains(s: string, key: string)
    decreases |s|
  {
    |key| <= |s| && (s[..|key|] == key || Contains(s[1..], key))
  }

  /** The scan finds `key` exactly when it occurs at some index of `s`. */
  lemma {:induction false} ContainsIff(s: string, key: string)
    ensures Contains(s, key) <==> exists i :: OccursAt(s, key, i)
    decreases |s|
  {
    if |key| <= |s| {
      if s[..|key|] == key {
        assert OccursAt(s, key, 0);
        return;
      }
      ContainsIff(s[1..], key);
      if Contains(s[1..], key) {
        var i :| OccursAt(s[1..], key, i);
        assert s[1..][i..i + |key|] == s[i + 1..i + 1 + |key|];
        assert OccursAt(s, key, i + 1);
      } else {
        forall i | 0 < i && i + |key| <= |s| ensures !OccursAt(s, key, i) {
          assert s[1..][i - 1..i - 1 + |key|] == s[i..i + |key|];
          assert !OccursAt(s[1..], key, i - 1);
        }
      }
    }
  }
}
