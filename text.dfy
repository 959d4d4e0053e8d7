/** Transcript text rules: Python's whitespace test and `lstrip`, the
    post-processing of a transcript, and how the two transcriber versions
    join the segment texts that the speech model returns. */
module Text {
  import opened Common

  /** The characters for which Python's `str.isspace` holds. */
  const Whitespace: set<char> := {
    '\t', '\n', '\U{0B}', '\U{0C}', '\r', '\U{1C}', '\U{1D}', '\U{1E}', '\U{1F}', ' ',
    '\U{85}', '\U{A0}', '\U{1680}', '\U{2000}', '\U{2001}', '\U{2002}', '\U{2003}',
    '\U{2004}', '\U{2005}', '\U{2006}', '\U{2007}', '\U{2008}', '\U{2009}', '\U{200A}',
    '\U{2028}', '\U{2029}', '\U{202F}', '\U{205F}', '\U{3000}'}

  /** Python's `str.isspace` on one character: among ASCII characters, the
      space, the tab, the line breaks and the four separator controls. */
  predicate IsSpace(c: char)
    ensures c == ' ' || c == '\t' || c == '\n' || c == '\r' ==> IsSpace(c)
    ensures 'a' <= c <= 'z' || 'A' <= c <= 'Z' || '0' <= c <= '9' ==> !IsSpace(c)
  {
    c in Whitespace
  }

  predicate AllSpace(s: string) {
    forall i :: 0 <= i < |s| ==> IsSpace(s[i])
  }

  /** Python's `s.lstrip()`. */
  function LStrip(s: string): (r: string)
    ensures |r| <= |s|
    ensures r != [] ==> !IsSpace(r[0])
  {
    if s != [] && IsSpace(s[0]) then LStrip(s[1..]) else s
  }

  /** What `lstrip` removes and keeps: the result is a suffix of `s`, what
      was removed is all whitespace, and what is kept does not start with
      whitespace -- so the longest whitespace prefix was removed. */
  lemma {:induction false} LStripSpec(s: string)
    ensures var r := LStrip(s);
            && |r| <= |s| && r == s[|s| - |r|..]
            && AllSpace(s[..|s| - |r|])
            && (r != [] ==> !IsSpace(r[0]))
  {
    if s != [] && IsSpace(s[0]) {
      LStripSpec(s[1..]);
      var r := LStrip(s);
      assert s[..|s| - |r|] == [s[0]] + s[1..][..|s| - 1 - |r|];
    }
  }

  /** A string that does not start with whitespace is its own `lstrip`. */
  lemma LStripFixed(s: string)
    requires s == [] || !IsSpace(s[0])
    ensures LStrip(s) == s
  {
  }

  /** `lstrip` of an all-whitespace string is empty, and only such strings
      strip to nothing. */
  lemma LStripEmpty(s: string)
    ensures LStrip(s) == [] <==> AllSpace(s)
  {
    LStripSpec(s);
    if LStrip(s) == [] {
      assert s[..|s|] == s;
    }
  }

  /** Text appended after a non-whitespace character survives `lstrip`
      untouched. */
  lemma {:induction false} LStripAppend(s: string, t: string)
    requires !AllSpace(s)
    ensures LStrip(s + t) == LStrip(s) + t
  {
    assert s != [];
    if IsSpace(s[0]) {
      assert !AllSpace(s[1..]) by {
        var i :| 0 <= i < |s| && !IsSpace(s[i]);
        assert s[1..][i - 1] == s[i];
      }
      assert (s + t)[1..] == s[1..] + t;
      LStripAppend(s[1..], t);
    }
  }

  /** The character `post_process` appends: one space when the text is
      non-empty and does not already end in whitespace, nothing otherwise. */
  function TrailingSpace(s: string): (t: string)
    ensures t == " " <==> s != [] && !IsSpace(s[|s| - 1])
    ensures t == "" <==> !(s != [] && !IsSpace(s[|s| - 1]))
  {
    if s != [] && !IsSpace(s[|s| - 1]) then " " else ""
  }

  /** `LocalTranscriber.post_process` (localtranscriber.py): make sure the
      text ends in whitespace, then strip its leading whitespace. */
  function PostProcess(s: string): (r: string)
    ensures |r| <= |s| + 1
  {
    LStrip(s + TrailingSpace(s))
  }

  /** A post-processed text never starts with whitespace, ends with
      whitespace unless it is empty, and is empty exactly when the input is
      whitespace only. */
  lemma PostProcessNormalised(s: string)
    ensures var r := PostProcess(s);
            && (r != [] ==> !IsSpace(r[0]) && IsSpace(r[|r| - 1]))
            && (r == [] <==> AllSpace(s))
  {
    var t := TrailingSpace(s);
    LStripEmpty(s + t);
    LStripSpec(s + t);
    var r := LStrip(s + t);
    if r != [] {
      assert r[|r| - 1] == (s + t)[|s + t| - 1];
    }
    assert t == " " ==> (s + t)[|s| - 1] == s[|s| - 1];
    assert t == "" ==> s + t == s;
  }

  /** What `post_process` keeps: the stripped text, with one space appended
      exactly when the input is non-empty and its last character is not
      whitespace. */
  lemma PostProcessShape(s: string)
    ensures PostProcess(s) == LStrip(s) + TrailingSpace(s)
  {
    if TrailingSpace(s) == " " {
      assert !AllSpace(s) by { assert !IsSpace(s[|s| - 1]); }
      LStripAppend(s, " ");
    } else {
      assert s + "" == s;
    }
  }

  /** `post_process("")` is `""`, and so is every whitespace-only input. */
  lemma PostProcessBlank(s: string)
    requires AllSpace(s)
    ensures PostProcess(s) == ""
  {
    LStripEmpty(s + TrailingSpace(s));
  }

  /** Post-processing twice is post-processing once. */
  lemma PostProcessIdempotent(s: string)
    ensures PostProcess(PostProcess(s)) == PostProcess(s)
  {
    var r := PostProcess(s);
    PostProcessNormalised(s);
    if r == [] {
      assert AllSpace(r);
    } else {
      assert TrailingSpace(r) == "";
      assert r + "" == r;
      LStripFixed(r);
    }
  }

  /** `" ".join(texts)`: the texts in order with one space between
      neighbours. */
  function JoinWithSpace(texts: seq<string>): (r: string)
    ensures |texts| == 1 ==> r == texts[0]
  {
    if |texts| == 0 then ""
    else if |texts| == 1 then texts[0]
    else texts[0] + " " + JoinWithSpace(texts[1..])
  }

  /** The length of a space-join: all text lengths plus one separator between
      each pair of neighbours. */
  lemma {:induction false} JoinWithSpaceLength(texts: seq<string>)
    requires texts != []
    ensures |JoinWithSpace(texts)| == |Flatten(texts)| + |texts| - 1
  {
    if |texts| > 1 {
      JoinWithSpaceLength(texts[1..]);
    }
  }

  /** Joining two non-empty lists with spaces is joining each and putting one
      space between the results. */
  lemma {:induction false} JoinWithSpaceAppend(a: seq<string>, b: seq<string>)
    requires a != [] && b != []
    ensures JoinWithSpace(a + b) == JoinWithSpace(a) + " " + JoinWithSpace(b)
  {
    if |a| == 1 {
      assert (a + b)[1..] == b;
    } else {
      assert (a + b)[1..] == a[1..] + b;
      JoinWithSpaceAppend(a[1..], b);
    }
  }

  /** `LocalTranscriber.transcribe_audio` in localtranscriber.py, after
      inference: no segments give `""`, otherwise the segment texts joined by
      single spaces. */
  function TranscribeLegacy(segments: seq<string>): (r: string)
    ensures segments == [] ==> r == ""
    ensures segments != [] ==> |r| == |Flatten(segments)| + |segments| - 1
  {
    if |segments| != 0 then
      JoinWithSpaceLength(segments);
      JoinWithSpace(segments)
    else ""
  }

  /** `LocalTranscriber.transcribe_audio` in src/localtranscriber.py, after
      inference: no segments give `""`; otherwise the segment texts are
      concatenated with no separator and normalised the way `post_process`
      does (src/localtranscriber.py repeats that code inline). */
  function Transcribe(segments: seq<string>): (r: string)
    ensures segments == [] ==> r == ""
  {
    if |segments| != 0 then PostProcess(Flatten(segments)) else ""
  }

  /** A transcript never starts with whitespace, ends with whitespace unless
      it is empty, and is empty exactly when the segment texts hold nothing
      but whitespace. */
  lemma TranscribeNormalised(segments: seq<string>)
    ensures var r := Transcribe(segments);
            && (r != [] ==> !IsSpace(r[0]) && IsSpace(r[|r| - 1]))
            && (r == [] <==> AllSpace(Flatten(segments)))
  {
    PostProcessNormalised(Flatten(segments));
  }

  /** The content of a transcript: the stripped concatenation, plus one space
      when the concatenation ends in a non-whitespace character. */
  lemma TranscribeShape(segments: seq<string>)
    ensures Transcribe(segments) == LStrip(Flatten(segments)) + TrailingSpace(Flatten(segments))
  {
    PostProcessShape(Flatten(segments));
  }

  /** Segments whose texts are all empty give `""`, with no space appended. */
  lemma TranscribeAllEmpty(segments: seq<string>)
    requires forall i :: 0 <= i < |segments| ==> segments[i] == ""
    ensures Transcribe(segments) == ""
  {
    FlattenEmpty(segments);
  }

  lemma {:induction false} FlattenEmpty(parts: seq<string>)
    requires forall i :: 0 <= i < |parts| ==> parts[i] == ""
    ensures Flatten(parts) == ""
  {
    if parts != [] {
      FlattenEmpty(parts[1..]);
    }
  }

  /** The newer transcript is the older one's post-processed form whenever no
      separator matters, i.e. for a single segment. */
  lemma TranscribeSingle(text: string)
    ensures Transcribe([text]) == PostProcess(TranscribeLegacy([text]))
  {
  }

  /** Python's `str.upper` on ASCII letters; other characters are kept. */
  function UpperChar(c: char): (u: char)
    ensures 'a' <= c <= 'z' ==> u as int == c as int - 32
    ensures !('a' <= c <= 'z') ==> u == c
  {
    if 'a' <= c <= 'z' then (c as int - 32) as char else c
  }

  /** `s.upper()`, character by character. */
  function Upper(s: string): (r: string)
    ensures |r| == |s|
    ensures forall i :: 0 <= i < |s| ==> r[i] == UpperChar(s[i])
  {
    if s == [] then [] else [UpperChar(s[0])] + Upper(s[1..])
  }

  /** An upper-cased string has no lower-case ASCII letter, and upper-casing
      it again changes nothing. */
  lemma UpperIdempotent(s: string)
    ensures forall i :: 0 <= i < |s| ==> !('a' <= Upper(s)[i] <= 'z')
    ensures Upper(Upper(s)) == Upper(s)
  {
  }
}
