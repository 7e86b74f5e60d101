/**
 Splitting text into white-space separated fields, as Go's `strings.Fields`
 does: every maximal run of non-space characters is one field, and runs of
 white space (leading, trailing, or repeated) never produce empty fields.

 `Fields` is the definition; `Layout` builds text from words and separating
 gaps, and `FieldsOfLayout` proves that splitting recovers exactly the words,
 while `LayoutOfFields` proves that every text is such a layout of its own
 fields; `Join` is the single-space layout (`JoinIsLayout`);
 `FieldsKeepContent` proves that no non-space character is lost or invented;
 `SplitFields` is the single-pass loop and is proved equal to `Fields`.
 */
module TextFields {

  /** White space as Go's `unicode.IsSpace` classifies it: tab, line feed,
      vertical tab, form feed, carriage return, space, U+0085, U+00A0, and
      the remaining code points with the Unicode White_Space property. */
  predicate IsSpace(c: char)
  {
    || c == ' ' || c == '\t' || c == '\n' || c == '\U{B}' || c == '\U{C}' || c == '\r'
    || c == '\U{85}' || c == '\U{A0}' || c == '\U{1680}'
    || ('\U{2000}' <= c <= '\U{200A}')
    || c == '\U{2028}' || c == '\U{2029}' || c == '\U{202F}' || c == '\U{205F}' || c == '\U{3000}'
  }

  /** Go's `unicode.White_Space` range table: the code points that have the
      Unicode White_Space property, as inclusive ranges in ascending order. */
  const WhiteSpaceTable: seq<(char, char)> := [
    ('\t', '\r'), (' ', ' '), ('\U{85}', '\U{85}'), ('\U{A0}', '\U{A0}'),
    ('\U{1680}', '\U{1680}'), ('\U{2000}', '\U{200A}'), ('\U{2028}', '\U{2029}'),
    ('\U{202F}', '\U{202F}'), ('\U{205F}', '\U{205F}'), ('\U{3000}', '\U{3000}')]

  /** `c` lies in one of the ranges of `WhiteSpaceTable`. */
  predicate InWhiteSpaceTable(c: char)
  {
    exists k :: 0 <= k < |WhiteSpaceTable| && WhiteSpaceTable[k].0 <= c <= WhiteSpaceTable[k].1
  }

  /** `IsSpace` classifies exactly the code points of the White_Space table,
      which is what `unicode.IsSpace` answers for every rune. */
  lemma IsSpaceIsWhiteSpace(c: char)
    ensures IsSpace(c) <==> InWhiteSpaceTable(c)
  {
    var t := WhiteSpaceTable;
    if '\t' <= c <= '\r' { assert t[0].0 <= c <= t[0].1; }
    else if c == ' ' { assert t[1].0 <= c <= t[1].1; }
    else if c == '\U{85}' { assert t[2].0 <= c <= t[2].1; }
    else if c == '\U{A0}' { assert t[3].0 <= c <= t[3].1; }
    else if c == '\U{1680}' { assert t[4].0 <= c <= t[4].1; }
    else if '\U{2000}' <= c <= '\U{200A}' { assert t[5].0 <= c <= t[5].1; }
    else if '\U{2028}' <= c <= '\U{2029}' { assert t[6].0 <= c <= t[6].1; }
    else if c == '\U{202F}' { assert t[7].0 <= c <= t[7].1; }
    else if c == '\U{205F}' { assert t[8].0 <= c <= t[8].1; }
    else if c == '\U{3000}' { assert t[9].0 <= c <= t[9].1; }
  }

  /** Text made only of white space (possibly empty). */
  predicate IsBlank(s: string)
  {
    forall i :: 0 <= i < |s| ==> IsSpace(s[i])
  }

  /** A possible field: non-empty text without white space. */
  predicate IsWord(s: string)
  {
    |s| > 0 && forall i :: 0 <= i < |s| ==> !IsSpace(s[i])
  }

  /** Length of the run of non-space characters that `s` starts with. */
  function WordLength(s: string): (n: nat)
    ensures n <= |s|
    ensures forall i :: 0 <= i < n ==> !IsSpace(s[i])
    ensures n < |s| ==> IsSpace(s[n])
    decreases |s|
  {
    if |s| == 0 || IsSpace(s[0]) then 0 else 1 + WordLength(s[1..])
  }

  /** The fields of `s`, left to right. */
  function Fields(s: string): (r: seq<string>)
    ensures forall i :: 0 <= i < |r| ==> IsWord(r[i])
    ensures |r| <= |s|
    decreases |s|
  {
    if |s| == 0 then []
    else if IsSpace(s[0]) then Fields(s[1..])
    else
      var n := WordLength(s);
      [s[..n]] + Fields(s[n..])
  }

  /** Leading white space is skipped. */
  lemma {:induction false} FieldsSkipBlank(pad: string, s: string)
    requires IsBlank(pad)
    ensures Fields(pad + s) == Fields(s)
    decreases |pad|
  {
    if |pad| > 0 {
      assert (pad + s)[1..] == pad[1..] + s;
      FieldsSkipBlank(pad[1..], s);
    } else {
      assert pad + s == s;
    }
  }

  /** The run of non-space characters at the start of `w + s` is exactly `w`. */
  lemma WordLengthOfWord(w: string, s: string)
    requires IsWord(w)
    requires |s| == 0 || IsSpace(s[0])
    ensures WordLength(w + s) == |w|
  {
    assert forall i :: 0 <= i < |w| ==> (w + s)[i] == w[i];
    if |s| > 0 {
      assert (w + s)[|w|] == s[0];
    }
  }

  /** A word followed by white space or by the end of the text is one field. */
  lemma FieldsTakeWord(w: string, s: string)
    requires IsWord(w)
    requires |s| == 0 || IsSpace(s[0])
    ensures Fields(w + s) == [w] + Fields(s)
  {
    WordLengthOfWord(w, s);
    assert (w + s)[0] == w[0];
    assert (w + s)[..|w|] == w;
    assert (w + s)[|w|..] == s;
  }

  /** A well-formed layout of `words`: one gap before, between and after the
      words, every gap blank, and every gap between two words non-empty. */
  predicate IsLayout(words: seq<string>, gaps: seq<string>)
  {
    && |gaps| == |words| + 1
    && (forall i :: 0 <= i < |words| ==> IsWord(words[i]))
    && (forall j :: 0 <= j < |gaps| ==> IsBlank(gaps[j]))
    && (forall j :: 0 < j < |words| ==> |gaps[j]| > 0)
  }

  /** gaps[0] + words[0] + gaps[1] + ... + words[n-1] + gaps[n]. */
  function Layout(words: seq<string>, gaps: seq<string>): string
    requires |gaps| == |words| + 1
    decreases |words|
  {
    if |words| == 0 then gaps[0] else gaps[0] + words[0] + Layout(words[1..], gaps[1..])
  }

  /** Splitting any well-formed layout of words gives back exactly the words. */
  lemma {:induction false} FieldsOfLayout(words: seq<string>, gaps: seq<string>)
    requires IsLayout(words, gaps)
    ensures Fields(Layout(words, gaps)) == words
    decreases |words|
  {
    if |words| == 0 {
      FieldsSkipBlank(gaps[0], "");
      assert gaps[0] + "" == gaps[0];
    } else {
      var tail := Layout(words[1..], gaps[1..]);
      assert IsLayout(words[1..], gaps[1..]);
      FieldsOfLayout(words[1..], gaps[1..]);
      if |gaps[1]| == 0 {
        assert |words| == 1;
        assert tail == gaps[1];
      } else {
        assert tail[0] == gaps[1][0];
      }
      FieldsTakeWord(words[0], tail);
      assert Layout(words, gaps) == gaps[0] + (words[0] + tail);
      FieldsSkipBlank(gaps[0], words[0] + tail);
    }
  }

  /** The words separated by single spaces, as Go's `strings.Join(ws, " ")`. */
  function Join(ws: seq<string>): string
    decreases |ws|
  {
    if |ws| == 0 then "" else if |ws| == 1 then ws[0] else ws[0] + " " + Join(ws[1..])
  }

  /** The gaps of `n` words joined with single spaces: `lead` before the
      first word, one space between two words, nothing after the last. */
  function SingleSpaces(lead: string, n: nat): (gaps: seq<string>)
    requires n > 0
  {
    [lead] + seq(n - 1, _ => " ") + [""]
  }

  /** Joining with single spaces is the layout with `SingleSpaces` gaps. */
  lemma {:induction false} LayoutOfSingleSpaces(lead: string, ws: seq<string>)
    requires |ws| > 0
    ensures Layout(ws, SingleSpaces(lead, |ws|)) == lead + Join(ws)
    decreases |ws|
  {
    var gaps := SingleSpaces(lead, |ws|);
    if |ws| == 1 {
      assert gaps[1..] == [""];
      assert lead + ws[0] + "" == lead + Join(ws);
    } else {
      assert gaps[1..] == SingleSpaces(" ", |ws| - 1);
      LayoutOfSingleSpaces(" ", ws[1..]);
      assert lead + ws[0] + (" " + Join(ws[1..])) == lead + (ws[0] + " " + Join(ws[1..]));
    }
  }

  /** The shape of `SingleSpaces`: `lead` first, then spaces, then nothing. */
  lemma SingleSpacesShape(lead: string, n: nat)
    requires n > 0
    ensures |SingleSpaces(lead, n)| == n + 1
    ensures SingleSpaces(lead, n)[0] == lead && SingleSpaces(lead, n)[n] == ""
    ensures forall j :: 0 < j < n ==> SingleSpaces(lead, n)[j] == " "
  {
  }

  /** Words joined with single spaces are a well-formed layout of those words:
      `Join` is the special case of `Layout` with `SingleSpaces` gaps. */
  lemma JoinIsLayout(ws: seq<string>)
    requires |ws| > 0
    requires forall i :: 0 <= i < |ws| ==> IsWord(ws[i])
    ensures IsLayout(ws, SingleSpaces("", |ws|))
    ensures Join(ws) == Layout(ws, SingleSpaces("", |ws|))
  {
    var gaps := SingleSpaces("", |ws|);
    SingleSpacesShape("", |ws|);
    assert IsBlank(" ");
    forall j | 0 <= j < |gaps|
      ensures IsBlank(gaps[j])
    {
      if 0 < j < |ws| {
        assert gaps[j] == " ";
      }
    }
    LayoutOfSingleSpaces("", ws);
    assert "" + Join(ws) == Join(ws);
  }

  /** Splitting undoes joining with single spaces. */
  lemma FieldsOfJoin(ws: seq<string>)
    requires forall i :: 0 <= i < |ws| ==> IsWord(ws[i])
    ensures Fields(Join(ws)) == ws
  {
    if |ws| > 0 {
      JoinIsLayout(ws);
      FieldsOfLayout(ws, SingleSpaces("", |ws|));
    }
  }

  /** The gaps around the fields of `s`: the white space before the first
      field, between consecutive fields, and after the last. */
  function GapsOf(s: string): (gaps: seq<string>)
    ensures |gaps| == |Fields(s)| + 1
    ensures |s| > 0 && IsSpace(s[0]) ==> |gaps[0]| > 0
    decreases |s|
  {
    if |s| == 0 then [""]
    else if IsSpace(s[0]) then
      var g := GapsOf(s[1..]);
      [[s[0]] + g[0]] + g[1..]
    else
      [""] + GapsOf(s[WordLength(s)..])
  }

  /** Putting a prefix `p` in front of the first gap puts it in front of the
      laid-out text. */
  lemma LayoutWidenFirstGap(words: seq<string>, gaps: seq<string>, p: string)
    requires |gaps| == |words| + 1
    ensures Layout(words, [p + gaps[0]] + gaps[1..]) == p + Layout(words, gaps)
  {
  }

  /** A white-space character in front of a layout joins its first gap. */
  lemma LayoutAfterSpace(c: char, words: seq<string>, gaps: seq<string>)
    requires IsSpace(c) && IsLayout(words, gaps)
    ensures IsLayout(words, [[c] + gaps[0]] + gaps[1..])
    ensures Layout(words, [[c] + gaps[0]] + gaps[1..]) == [c] + Layout(words, gaps)
  {
  }

  /** A word in front of a layout whose first gap is non-empty (or which has
      no words) is a layout with one more word and an empty first gap. */
  lemma LayoutAfterWord(w: string, words: seq<string>, gaps: seq<string>)
    requires IsWord(w) && IsLayout(words, gaps)
    requires |words| > 0 ==> |gaps[0]| > 0
    ensures IsLayout([w] + words, [""] + gaps)
    ensures Layout([w] + words, [""] + gaps) == w + Layout(words, gaps)
  {
  }

  /** Every text is a well-formed layout of its own fields, so `Layout` and
      `FieldsOfLayout` speak about every text, not only some. */
  lemma {:induction false} LayoutOfFields(s: string)
    ensures IsLayout(Fields(s), GapsOf(s))
    ensures Layout(Fields(s), GapsOf(s)) == s
    decreases |s|
  {
    if |s| == 0 {
    } else if IsSpace(s[0]) {
      var g := GapsOf(s[1..]);
      assert Fields(s) == Fields(s[1..]);
      assert GapsOf(s) == [[s[0]] + g[0]] + g[1..];
      LayoutOfFields(s[1..]);
      LayoutAfterSpace(s[0], Fields(s[1..]), g);
      assert [s[0]] + s[1..] == s;
    } else {
      var n := WordLength(s);
      var rest := s[n..];
      assert Fields(s) == [s[..n]] + Fields(rest);
      assert GapsOf(s) == [""] + GapsOf(rest);
      LayoutOfFields(rest);
      assert |Fields(rest)| <= |rest|;
      LayoutAfterWord(s[..n], Fields(rest), GapsOf(rest));
      assert s[..n] + rest == s;
    }
  }

  /** The non-space characters of `s`, in order. */
  function NonSpace(s: string): string
    decreases |s|
  {
    if |s| == 0 then [] else (if IsSpace(s[0]) then [] else [s[0]]) + NonSpace(s[1..])
  }

  /** All fields, concatenated. */
  function Concat(ws: seq<string>): string
    decreases |ws|
  {
    if |ws| == 0 then [] else ws[0] + Concat(ws[1..])
  }

  /** Removing white space distributes over concatenation. */
  lemma {:induction false} NonSpaceAppend(a: string, b: string)
    ensures NonSpace(a + b) == NonSpace(a) + NonSpace(b)
    decreases |a|
  {
    if |a| == 0 {
      assert a + b == b;
    } else {
      assert (a + b)[0] == a[0];
      assert (a + b)[1..] == a[1..] + b;
      NonSpaceAppend(a[1..], b);
    }
  }

  /** Text without white space is unchanged when white space is removed. */
  lemma {:induction false} NonSpaceOfWord(w: string)
    requires forall i :: 0 <= i < |w| ==> !IsSpace(w[i])
    ensures NonSpace(w) == w
    decreases |w|
  {
    if |w| > 0 {
      NonSpaceOfWord(w[1..]);
      assert w == [w[0]] + w[1..];
    }
  }

  /** Splitting loses no non-space character and adds none: the fields,
      glued together, are the text with its white space removed. */
  lemma {:induction false} FieldsKeepContent(s: string)
    ensures Concat(Fields(s)) == NonSpace(s)
    decreases |s|
  {
    if |s| == 0 {
    } else if IsSpace(s[0]) {
      FieldsKeepContent(s[1..]);
    } else {
      var n := WordLength(s);
      var rest := Fields(s[n..]);
      assert Fields(s) == [s[..n]] + rest;
      assert ([s[..n]] + rest)[1..] == rest;
      FieldsKeepContent(s[n..]);
      assert s == s[..n] + s[n..];
      NonSpaceAppend(s[..n], s[n..]);
      NonSpaceOfWord(s[..n]);
    }
  }

  /** A white-space character at position `i` adds no field to the rest. */
  lemma FieldsSkipSpace(s: string, i: nat)
    requires i < |s| && IsSpace(s[i])
    ensures Fields(s[i..]) == Fields(s[i + 1..])
  {
  }

  /** A word ending at a space or at the end of `s` is the next field. */
  lemma FieldsCutWord(s: string, start: nat, i: nat)
    requires start < i <= |s|
    requires IsWord(s[start..i])
    requires i == |s| || IsSpace(s[i])
    ensures Fields(s[start..]) == [s[start..i]] + Fields(s[i..])
  {
    assert s[start..] == s[start..i] + s[i..];
    FieldsTakeWord(s[start..i], s[i..]);
  }

  /** A non-space character extends the word being read. */
  lemma WordGrows(s: string, start: nat, i: nat)
    requires start <= i < |s|
    requires start == i || IsWord(s[start..i])
    requires !IsSpace(s[i])
    ensures IsWord(s[start..i + 1])
  {
    var w := s[start..i + 1];
    forall k | 0 <= k < |w|
      ensures !IsSpace(w[k])
    {
      if k < i - start {
        assert w[k] == s[start..i][k];
      }
    }
  }

  /** The single left-to-right pass that `strings.Fields` performs: remember
      where the current field started and cut it off at the next space. */
  method SplitFields(s: string) returns (fields: seq<string>)
    ensures fields == Fields(s)
  {
    fields := [];
    var start := 0;
    var i := 0;
    while i < |s|
      invariant start <= i <= |s|
      invariant start == i || IsWord(s[start..i])
      invariant fields + Fields(s[start..]) == Fields(s)
    {
      if IsSpace(s[i]) {
        if start < i {
          FieldsCutWord(s, start, i);
          fields := fields + [s[start..i]];
        }
        FieldsSkipSpace(s, i);
        start := i + 1;
      } else {
        WordGrows(s, start, i);
      }
      i := i + 1;
    }
    if start < i {
      FieldsCutWord(s, start, i);
      assert Fields(s[i..]) == [];
      fields := fields + [s[start..i]];
    }
  }
}
