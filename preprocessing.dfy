/**
 * Text normalisation done by `predict` before tokenization
 * (app/services.py:83): every character of Python's `string.punctuation`
 * is deleted (`str.translate` with a deletion table), then surrounding
 * whitespace is removed with `str.strip()`.
 */
module Preprocessing {

  /** Python's `string.punctuation`, in code-point order. */
  const Punctuation: string := "!\"#$%&'()*+,-./:;<=>?@[\\]^_`{|}~"

  /** The 32 ASCII punctuation characters, as four code-point ranges. */
  predicate IsPunctuation(c: char) {
    ('!' <= c <= '/') || (':' <= c <= '@') || ('[' <= c <= '`') || ('{' <= c <= '~')
  }

  /**
   * The characters Python's `str.isspace` accepts, which are exactly the
   * ones `str.strip()` with no argument removes.
   */
  predicate IsWhitespace(c: char) {
    ('\t' <= c <= '\r') || ('\U{1C}' <= c <= ' ') || c == '\U{85}' || c == '\U{A0}'
    || c == '\U{1680}' || ('\U{2000}' <= c <= '\U{200A}') || c == '\U{2028}' || c == '\U{2029}'
    || c == '\U{202F}' || c == '\U{205F}' || c == '\U{3000}'
  }

  predicate AllWhitespace(s: string) {
    forall i :: 0 <= i < |s| ==> IsWhitespace(s[i])
  }

  predicate NoPunctuation(s: string) {
    forall i :: 0 <= i < |s| ==> !IsPunctuation(s[i])
  }

  /** Neither the first nor the last character is whitespace. */
  predicate NoEdgeWhitespace(s: string) {
    s == [] || (!IsWhitespace(s[0]) && !IsWhitespace(s[|s| - 1]))
  }

  /** `string.punctuation` has 32 characters, in strictly increasing order, all of them punctuation. */
  lemma PunctuationTable()
    ensures |Punctuation| == 32
    ensures forall i, j :: 0 <= i < j < |Punctuation| ==> Punctuation[i] < Punctuation[j]
    ensures forall i :: 0 <= i < |Punctuation| ==> IsPunctuation(Punctuation[i])
  {
  }

  /** The four ranges hold exactly the characters listed in `string.punctuation`. */
  lemma PunctuationIsListed(c: char)
    ensures IsPunctuation(c) <==> c in Punctuation
  {
    PunctuationTable();
    var n := c as int;
    if IsPunctuation(c) {
      if n <= 47 {
        assert Punctuation[n - 33] == c;
      } else if n <= 64 {
        assert Punctuation[n - 43] == c;
      } else if n <= 96 {
        assert Punctuation[n - 69] == c;
      } else {
        assert Punctuation[n - 95] == c;
      }
    }
  }

  /** No punctuation character is whitespace, so the two steps do not interfere. */
  lemma PunctuationIsNotWhitespace(c: char)
    ensures IsPunctuation(c) ==> !IsWhitespace(c)
  {
  }

  /** `text.translate(str.maketrans('', '', string.punctuation))`. */
  function RemovePunctuation(s: string): (r: string)
    ensures |r| <= |s|
    ensures NoPunctuation(r)
  {
    if s == [] then []
    else (if IsPunctuation(s[0]) then [] else [s[0]]) + RemovePunctuation(s[1..])
  }

  /** `str.lstrip()`: the longest suffix that does not start with whitespace. */
  function TrimStart(s: string): (r: string)
    ensures |r| <= |s| && r == s[|s| - |r|..]
    ensures AllWhitespace(s[..|s| - |r|])
    ensures r == [] || !IsWhitespace(r[0])
  {
    if s != [] && IsWhitespace(s[0]) then TrimStart(s[1..]) else s
  }

  /** `str.rstrip()`: the longest prefix that does not end with whitespace. */
  function TrimEnd(s: string): (r: string)
    ensures |r| <= |s| && r == s[..|r|]
    ensures AllWhitespace(s[|r|..])
    ensures r == [] || !IsWhitespace(r[|r| - 1])
  {
    if s != [] && IsWhitespace(s[|s| - 1]) then
      var init := s[..|s| - 1];
      var r := TrimEnd(init);
      assert s[|r|..] == init[|r|..] + [s[|s| - 1]];
      assert r == s[..|r|];
      r
    else s
  }

  /** `str.strip()`. */
  function Strip(s: string): (r: string)
    ensures |r| <= |s|
    ensures NoEdgeWhitespace(r)
  {
    TrimEnd(TrimStart(s))
  }

  /**
   * What stripping means, independently of how it is computed: `r` is the
   * slice `s[i..i + |r|]`, everything cut off on either side is whitespace,
   * and `r` itself neither starts nor ends with whitespace.
   */
  ghost predicate IsStrippingOf(r: string, s: string) {
    NoEdgeWhitespace(r) &&
    exists i :: 0 <= i <= |s| - |r| && r == s[i..i + |r|]
                && AllWhitespace(s[..i]) && AllWhitespace(s[i + |r|..])
  }

  /** The text `predict` hands to the tokenizer. */
  function Preprocess(text: string): (r: string)
    ensures NoPunctuation(r)
    ensures NoEdgeWhitespace(r)
  {
    var kept := RemovePunctuation(text);
    StripKeepsCharacters(kept);
    Strip(kept)
  }

  /** Every character `Strip` keeps comes from its input, so properties of all characters carry over. */
  lemma StripKeepsCharacters(s: string)
    ensures forall c :: c in Strip(s) ==> c in s
  {
    var t := TrimStart(s);
    assert forall c :: c in t ==> c in s by {
      assert t == s[|s| - |t|..];
    }
    var r := TrimEnd(t);
    assert forall c :: c in r ==> c in t by {
      assert r == t[..|r|];
    }
  }

  /** Deleting punctuation commutes with concatenation: it filters each part on its own. */
  lemma {:induction false} RemovePunctuationConcat(a: string, b: string)
    ensures RemovePunctuation(a + b) == RemovePunctuation(a) + RemovePunctuation(b)
  {
    if a == [] {
      assert a + b == b;
    } else {
      assert (a + b)[0] == a[0];
      assert (a + b)[1..] == a[1..] + b;
      RemovePunctuationConcat(a[1..], b);
    }
  }

  /** Deleting punctuation introduces no character that was not there. */
  lemma {:induction false} RemovePunctuationKeepsCharacters(s: string)
    ensures forall c :: c in RemovePunctuation(s) ==> c in s
  {
    if s != [] {
      RemovePunctuationKeepsCharacters(s[1..]);
      assert forall c :: c in s[1..] ==> c in s;
    }
  }

  /** A single character is deleted exactly when it is punctuation. */
  lemma RemovePunctuationSingle(c: char)
    ensures RemovePunctuation([c]) == if IsPunctuation(c) then [] else [c]
  {
    assert [c][1..] == [];
  }

  /** Text without punctuation passes through unchanged. */
  lemma {:induction false} RemovePunctuationKeepsClean(s: string)
    requires NoPunctuation(s)
    ensures RemovePunctuation(s) == s
  {
    if s != [] {
      RemovePunctuationKeepsClean(s[1..]);
    }
  }

  /** `Strip` does what stripping means: the result is the whitespace-trimmed slice of the input. */
  lemma StripIsStripping(s: string)
    ensures IsStrippingOf(Strip(s), s)
  {
    var t := TrimStart(s);
    var r := TrimEnd(t);
    var i := |s| - |t|;
    assert t == s[i..];
    assert r == s[i..i + |r|];
    assert s[i + |r|..] == t[|r|..];
  }

  /** Where the first non-whitespace character is, `lstrip` cuts. */
  lemma {:induction false} TrimStartAt(s: string, i: nat)
    requires i <= |s| && AllWhitespace(s[..i])
    requires i == |s| || !IsWhitespace(s[i])
    ensures TrimStart(s) == s[i..]
  {
    if i > 0 {
      assert s[..i][0] == s[0];
      assert s[1..][..i - 1] == s[1..i];
      TrimStartAt(s[1..], i - 1);
      assert s[1..][i - 1..] == s[i..];
    }
  }

  /** Just after the last non-whitespace character is where `rstrip` cuts. */
  lemma {:induction false} TrimEndAt(s: string, e: nat)
    requires e <= |s| && AllWhitespace(s[e..])
    requires e == 0 || !IsWhitespace(s[e - 1])
    ensures TrimEnd(s) == s[..e]
    decreases |s| - e
  {
    if e < |s| {
      var t := s[..|s| - 1];
      assert s[e..][|s| - 1 - e] == s[|s| - 1];
      assert t[e..] == s[e..|s| - 1];
      assert AllWhitespace(t[e..]) by {
        forall k | 0 <= k < |t[e..]|
          ensures IsWhitespace(t[e..][k])
        {
          assert t[e..][k] == s[e..][k];
        }
      }
      TrimEndAt(t, e);
      assert t[..e] == s[..e];
    }
  }

  /** Only one string is the stripping of `s`, so the declarative meaning pins `Strip` down. */
  lemma StrippingIsUnique(r: string, s: string)
    requires IsStrippingOf(r, s)
    ensures r == Strip(s)
  {
    var i :| 0 <= i <= |s| - |r| && r == s[i..i + |r|] && AllWhitespace(s[..i]) && AllWhitespace(s[i + |r|..]);
    StrippingAtIsStrip(r, s, i);
  }

  lemma StrippingAtIsStrip(r: string, s: string, i: nat)
    requires NoEdgeWhitespace(r)
    requires i + |r| <= |s| && r == s[i..i + |r|]
    requires AllWhitespace(s[..i]) && AllWhitespace(s[i + |r|..])
    ensures r == Strip(s)
  {
    if r == [] {
      AllWhitespaceConcat(s[..i], s[i..]);
      assert s == s[..i] + s[i..];
      TrimStartAt(s, |s|);
    } else {
      assert s[i] == r[0];
      TrimStartAt(s, i);
      TrimEndOfSlice(r, s, i);
    }
  }

  lemma TrimEndOfSlice(r: string, s: string, i: nat)
    requires r != [] && !IsWhitespace(r[|r| - 1])
    requires i + |r| <= |s| && r == s[i..i + |r|]
    requires AllWhitespace(s[i + |r|..])
    ensures TrimEnd(s[i..]) == r
  {
    var t := s[i..];
    assert t[|r|..] == s[i + |r|..];
    assert t[|r| - 1] == r[|r| - 1];
    TrimEndAt(t, |r|);
    assert t[..|r|] == r;
  }

  lemma AllWhitespaceConcat(a: string, b: string)
    requires AllWhitespace(a) && AllWhitespace(b)
    ensures AllWhitespace(a + b)
  {
  }

  /** `value.strip()` is empty exactly when the value is all whitespace (or empty). */
  lemma StripEmptyIff(s: string)
    ensures Strip(s) == [] <==> AllWhitespace(s)
  {
    if AllWhitespace(s) {
      assert IsStrippingOf([], s) by {
        assert [] == s[0..0] && s[..0] == [] && s[0..] == s;
      }
      StrippingIsUnique([], s);
    }
    if Strip(s) == [] {
      StripIsStripping(s);
      var i :| 0 <= i <= |s| && [] == s[i..i] && AllWhitespace(s[..i]) && AllWhitespace(s[i..]);
      AllWhitespaceConcat(s[..i], s[i..]);
      assert s == s[..i] + s[i..];
    }
  }

  /** Text that has no edge whitespace is left alone by `Strip`. */
  lemma StripKeepsTrimmed(s: string)
    requires NoEdgeWhitespace(s)
    ensures Strip(s) == s
  {
    assert IsStrippingOf(s, s) by {
      assert s == s[0..|s|] && s[..0] == [] && s[|s|..] == [];
    }
    StrippingIsUnique(s, s);
  }

  /**
   * The preprocessed text is the punctuation-free text with only surrounding
   * whitespace removed: interior whitespace and every other character stay,
   * in order.
   */
  lemma PreprocessKeepsInterior(text: string)
    ensures IsStrippingOf(Preprocess(text), RemovePunctuation(text))
  {
    StripIsStripping(RemovePunctuation(text));
  }

  /** Preprocessing twice is the same as preprocessing once. */
  lemma PreprocessIdempotent(text: string)
    ensures Preprocess(Preprocess(text)) == Preprocess(text)
  {
    var p := Preprocess(text);
    RemovePunctuationKeepsClean(p);
    StripKeepsTrimmed(p);
  }

  /** Text made only of punctuation and whitespace preprocesses to the empty string. */
  lemma {:induction false} PreprocessEmptyWhenNothingElse(text: string)
    requires forall i :: 0 <= i < |text| ==> IsPunctuation(text[i]) || IsWhitespace(text[i])
    ensures Preprocess(text) == []
  {
    var kept := RemovePunctuation(text);
    KeptIsWhitespace(text);
    StripEmptyIff(kept);
  }

  lemma {:induction false} KeptIsWhitespace(text: string)
    requires forall i :: 0 <= i < |text| ==> IsPunctuation(text[i]) || IsWhitespace(text[i])
    ensures AllWhitespace(RemovePunctuation(text))
  {
    if text != [] {
      KeptIsWhitespace(text[1..]);
    }
  }
}
