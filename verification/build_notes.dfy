/**
 * `note_to_html` of build-notes.py: a tiny markdown converter that turns the
 * lines of a note into HTML elements, one per non-empty line.
 */
module BuildNotes {
  import opened JsCore

  /** The `tags` table: a line flag and the element it opens. */
  const Tags: seq<(string, string)> := [("#", "h1"), ("##", "h2"), ("###", "h3"), ("-", "li")]

  /** `tags[flag]` when flag is a key, else None. */
  function TagOf(flag: string): Option<string>
  {
    TagFrom(flag, 0)
  }

  /** The lookup from entry k of the table on. */
  function TagFrom(flag: string, k: nat): Option<string>
    decreases |Tags| - k
  {
    if k >= |Tags| then None
    else if Tags[k].0 == flag then Some(Tags[k].1)
    else TagFrom(flag, k + 1)
  }

  /** Python's `str.isspace` for one character: what `strip` removes. */
  predicate IsPySpace(c: char)
  {
    || ('\t' <= c <= '\r') || ('\U{001C}' <= c <= ' ')
    || c == '\U{0085}' || c == '\U{00A0}' || c == '\U{1680}'
    || ('\U{2000}' <= c <= '\U{200A}')
    || c == '\U{2028}' || c == '\U{2029}' || c == '\U{202F}' || c == '\U{205F}'
    || c == '\U{3000}'
  }

  function StripStart(s: string): (r: string)
    ensures |r| <= |s| && r == s[|s| - |r|..]
    ensures r == [] || !IsPySpace(r[0])
    ensures forall i :: 0 <= i < |s| - |r| ==> IsPySpace(s[i])
  {
    if s != [] && IsPySpace(s[0]) then StripStart(s[1..]) else s
  }

  function StripEnd(s: string): (r: string)
    ensures |r| <= |s| && r == s[..|r|]
    ensures r == [] || !IsPySpace(r[|r| - 1])
    ensures forall i :: |r| <= i < |s| ==> IsPySpace(s[i])
  {
    if s != [] && IsPySpace(s[|s| - 1]) then StripEnd(s[..|s| - 1]) else s
  }

  /** `s.strip()`. */
  function Strip(s: string): string
  {
    StripEnd(StripStart(s))
  }

  /** `s[start::]`, which is empty from the end on. */
  function From(s: string, start: nat): (r: string)
    ensures start <= |s| ==> r == s[start..]
    ensures start >= |s| ==> r == []
  {
    if start <= |s| then s[start..] else []
  }

  /** `"<{tag}>{content}</{tag}>"`. */
  function Element(tag: string, content: string): string
  {
    "<" + tag + ">" + content + "</" + tag + ">"
  }

  /** One pass of the `for line` loop: the element a line becomes. The
      flag is the first space-separated word of the stripped line; a flag
      in `tags` gives that element around the text after the flag and one
      more character, any other line a paragraph around the whole line. */
  function LineToHtml(line: string): string
  {
    StrippedToHtml(Strip(line))
  }

  /** The element of a line once stripped. */
  function StrippedToHtml(l: string): string
  {
    var flag := Split(l, ' ')[0];
    match TagOf(flag)
    case Some(tag) => Element(tag, From(l, |flag| + 1))
    case None => Element("p", l)
  }

  /** `[l for l in note.split('\n') if l]`. */
  function KeptLines(parts: seq<string>): (kept: seq<string>)
    ensures |kept| <= |parts|
    ensures forall i :: 0 <= i < |kept| ==> kept[i] != [] && kept[i] in parts
  {
    if parts == [] then []
    else (if parts[0] == [] then [] else [parts[0]]) + KeptLines(parts[1..])
  }

  /** `sep.join(parts)`. */
  function Join(parts: seq<string>, sep: string): string
  {
    if parts == [] then []
    else if |parts| == 1 then parts[0]
    else parts[0] + sep + Join(parts[1..], sep)
  }

  /** The separator between two elements of the output. */
  const Sep: string := "\n    "

  /** The results of f on the first n lines, in order. */
  function MapUpTo(f: string -> string, lines: seq<string>, n: nat): (out: seq<string>)
    requires n <= |lines|
    ensures |out| == n
  {
    if n == 0 then [] else MapUpTo(f, lines, n - 1) + [f(lines[n - 1])]
  }

  /** `note_to_html(note)`. */
  function NoteToHtml(note: string): string
  {
    var lines := KeptLines(Split(note, '\n'));
    Join(MapUpTo(LineToHtml, lines, |lines|), Sep)
  }

  /** The `for line` loop: one element per line, appended in order. */
  method ConvertLines(lines: seq<string>) returns (out: seq<string>)
    ensures out == MapUpTo(LineToHtml, lines, |lines|)
  {
    out := [];
    var i := 0;
    while i < |lines|
      invariant 0 <= i <= |lines|
      invariant out == MapUpTo(LineToHtml, lines, i)
    {
      out := out + [LineToHtml(lines[i])];
      i := i + 1;
    }
  }

  /** `note_to_html`: drop the empty lines, convert the rest, join. */
  method ConvertNote(note: string) returns (html: string)
    ensures html == NoteToHtml(note)
  {
    var lines := KeptLines(Split(note, '\n'));
    var out := ConvertLines(lines);
    html := Join(out, Sep);
  }

  // ---------------------------------------------------------------------------
  // Properties
  // ---------------------------------------------------------------------------

  /** MapUpTo holds the result for each line at the line's own position. */
  lemma {:induction false} MapUpToAt(f: string -> string, lines: seq<string>, n: nat, i: nat)
    requires i < n <= |lines|
    ensures MapUpTo(f, lines, n)[i] == f(lines[i])
  {
    if i < n - 1 {
      MapUpToAt(f, lines, n - 1, i);
    }
  }

  /** The lookup finds the entry whose key is the flag, and fails exactly
      when no key is. */
  lemma {:induction false} TagFromFinds(flag: string, k: nat)
    ensures TagFrom(flag, k).None? <==> forall j :: k <= j < |Tags| ==> Tags[j].0 != flag
    ensures TagFrom(flag, k).Some? ==> exists j :: k <= j < |Tags| && Tags[j] == (flag, TagFrom(flag, k).value)
    decreases |Tags| - k
  {
    if k < |Tags| && Tags[k].0 != flag {
      TagFromFinds(flag, k + 1);
    }
  }

  /** A line is kept exactly when it is not empty, and the kept lines keep
      their order. */
  lemma {:induction false} KeptLinesExactly(parts: seq<string>, x: string)
    ensures x in KeptLines(parts) <==> x in parts && x != []
  {
    if parts != [] {
      KeptLinesExactly(parts[1..], x);
      assert parts == [parts[0]] + parts[1..];
    }
  }

  /** Filtering a note with one more line keeps what it kept before, then
      the new line if it is not empty. */
  lemma {:induction false} KeptLinesAppend(parts: seq<string>, x: string)
    ensures KeptLines(parts + [x]) == KeptLines(parts) + (if x == [] then [] else [x])
    decreases |parts|
  {
    if parts == [] {
      assert [] + [x] == [x];
    } else {
      assert (parts + [x])[1..] == parts[1..] + [x];
      KeptLinesAppend(parts[1..], x);
    }
  }

  /** A line of only whitespace survives the filter and becomes `<p></p>`. */
  lemma BlankLine(line: string)
    requires line != [] && forall i :: 0 <= i < |line| ==> IsPySpace(line[i])
    ensures LineToHtml(line) == "<p></p>"
  {
    assert Strip(line) == [];
    assert Split([], ' ') == [[]];
  }

  /** Each flag of the table looks up its own element: no flag comes
      twice. */
  lemma TagOfEntry(k: nat)
    requires k < |Tags|
    ensures TagOf(Tags[k].0) == Some(Tags[k].1)
  {
    assert Tags[0].0 == "#" && Tags[1].0 == "##" && Tags[2].0 == "###" && Tags[3].0 == "-";
  }

  /** A text that starts and ends with something other than whitespace is
      its own strip. */
  lemma StripUnpadded(line: string)
    requires line != [] && !IsPySpace(line[0]) && !IsPySpace(line[|line| - 1])
    ensures Strip(line) == line
  {
    assert StripStart(line) == line;
  }

  /** A flag from the table, a space and some text become that element
      around the text. */
  lemma FlagLine(k: nat, text: string)
    requires k < |Tags|
    requires text != [] && !IsPySpace(text[|text| - 1])
    ensures LineToHtml(Tags[k].0 + " " + text) == Element(Tags[k].1, text)
  {
    var flag := Tags[k].0;
    var line := flag + " " + text;
    assert flag[0] != ' ' && !IsPySpace(line[0]);
    assert line[|line| - 1] == text[|text| - 1];
    StripUnpadded(line);
    assert line == flag + [' '] + text;
    SplitFirst(flag, text, ' ');
    assert Split(line, ' ')[0] == flag;
    TagOfEntry(k);
    assert line[|flag| + 1..] == text;
  }

  /** A line whose first word is not a flag becomes a paragraph around the
      whole stripped line. */
  lemma ParagraphLine(line: string)
    requires forall k :: 0 <= k < |Tags| ==> Split(Strip(line), ' ')[0] != Tags[k].0
    ensures LineToHtml(line) == Element("p", Strip(line))
  {
  }

  /** The output has one piece per line, in order: split on newlines it
      gives each element, every one after the first behind the four-space
      indent, when no element holds a newline. */
  lemma {:induction false} JoinSplits(parts: seq<string>)
    requires parts != []
    requires forall k, i :: 0 <= k < |parts| && 0 <= i < |parts[k]| ==> parts[k][i] != '\n'
    ensures var pieces := Split(Join(parts, Sep), '\n');
            |pieces| == |parts| && pieces[0] == parts[0]
            && forall k :: 1 <= k < |parts| ==> pieces[k] == "    " + parts[k]
  {
    if |parts| == 1 {
      SplitNoSeparator(parts[0], '\n');
    } else {
      var rest := parts[1..];
      JoinSplits(rest);
      var tail := Join(rest, Sep);
      assert Join(parts, Sep) == parts[0] + ['\n'] + ("    " + tail);
      SplitFirst(parts[0], "    " + tail, '\n');
      SplitPrepend("    ", tail, '\n');
    }
  }

  /** A text free of the separator in front of another lands in the
      other's first piece. */
  lemma {:induction false} SplitPrepend(a: string, s: string, c: char)
    requires forall i :: 0 <= i < |a| ==> a[i] != c
    ensures Split(a + s, c) == [a + Split(s, c)[0]] + Split(s, c)[1..]
  {
    var p := Split(s, c);
    if a == [] {
      assert a + s == s && a + p[0] == p[0];
      assert [p[0]] + p[1..] == p;
    } else {
      SplitPrepend(a[1..], s, c);
      var rest := Split(a[1..] + s, c);
      assert (a + s)[0] == a[0] && (a + s)[1..] == a[1..] + s;
      assert Split(a + s, c) == [[a[0]] + rest[0]] + rest[1..];
      assert [a[0]] + (a[1..] + p[0]) == a + p[0];
    }
  }

  /** Stripping keeps a text free of newlines. */
  lemma {:induction false} StripNoNewline(line: string)
    requires '\n' !in line
    ensures '\n' !in Strip(line)
  {
    var s := StripStart(line);
    var l := StripEnd(s);
    var off := |line| - |s|;
    assert Strip(line) == l;
    forall i | 0 <= i < |l|
      ensures l[i] != '\n'
    {
      assert l[i] == s[i] == line[off + i];
    }
  }

  /** No element name of the table holds a newline. */
  lemma TagsNoNewline(j: nat)
    requires j < |Tags|
    ensures '\n' !in Tags[j].1
  {
    assert Tags[0].1 == "h1" && Tags[1].1 == "h2" && Tags[2].1 == "h3" && Tags[3].1 == "li";
  }

  lemma ElementNoNewline(tag: string, content: string)
    requires '\n' !in tag && '\n' !in content
    ensures '\n' !in Element(tag, content)
  {
  }

  /** The element of a stripped line free of newlines holds none. */
  lemma StrippedNoNewline(l: string)
    requires '\n' !in l
    ensures '\n' !in StrippedToHtml(l)
  {
    var flag := Split(l, ' ')[0];
    var c := From(l, |flag| + 1);
    assert forall i :: 0 <= i < |c| ==> c[i] == l[|flag| + 1 + i];
    TagFromFinds(flag, 0);
    match TagOf(flag)
    case Some(t) =>
      var j :| 0 <= j < |Tags| && Tags[j] == (flag, t);
      TagsNoNewline(j);
      ElementNoNewline(t, c);
    case None =>
      ElementNoNewline("p", l);
  }

  /** An element made from a piece of a split note holds no newline. */
  lemma LineHtmlNoNewline(line: string)
    requires '\n' !in line
    ensures '\n' !in LineToHtml(line)
  {
    StripNoNewline(line);
    StrippedNoNewline(Strip(line));
  }

  /** `note_to_html` gives one line of output per non-empty line of the
      note, the first as is and the others indented by four spaces. */
  lemma NoteLines(note: string)
    requires KeptLines(Split(note, '\n')) != []
    ensures var lines := KeptLines(Split(note, '\n'));
            var pieces := Split(NoteToHtml(note), '\n');
            |pieces| == |lines| && pieces[0] == LineToHtml(lines[0])
            && forall k :: 1 <= k < |lines| ==> pieces[k] == "    " + LineToHtml(lines[k])
  {
    var parts := Split(note, '\n');
    var lines := KeptLines(parts);
    var out := MapUpTo(LineToHtml, lines, |lines|);
    forall k | 0 <= k < |lines|
      ensures out[k] == LineToHtml(lines[k])
      ensures forall i :: 0 <= i < |out[k]| ==> out[k][i] != '\n'
    {
      MapUpToAt(LineToHtml, lines, |lines|, k);
      assert lines[k] in parts;
      var m :| 0 <= m < |parts| && parts[m] == lines[k];
      assert forall i :: 0 <= i < |lines[k]| ==> lines[k][i] == parts[m][i];
      LineHtmlNoNewline(lines[k]);
    }
    JoinSplits(out);
  }
}
