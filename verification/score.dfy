/**
 * The older voice-line score format of week 4 (week4/project/score.js):
 * each non-empty line is `name: sequence.repeats`.
 */
module VoiceScore {
  import opened JsCore

  /** A voice's data; a step or a repeat count that `parseInt` rejects is NaN (None). */
  datatype VoiceData = VoiceData(repeats: Option<int>, sequence: seq<Option<int>>)

  /** Why parsing stops: a non-empty line without `:` leaves `data` undefined. */
  datatype ScoreError = DataUndefined(line: string)

  predicate IsBracket(c: char) { c == '[' || c == ']' }

  /** The value one character of the sequence part maps to (brackets are filtered out). */
  function StepOf(c: char): Option<int>
  {
    if c == ' ' then Some(-1) else ParseInt([c])
  }

  /** The sequence part, character by character, with brackets removed. */
  function Steps(s: string): seq<Option<int>>
  {
    if s == [] then []
    else (if IsBracket(s[0]) then [] else [StepOf(s[0])]) + Steps(s[1..])
  }

  /** `parseVoice`: the trimmed name and data around the first `:`, then the
      sequence and repeat count around the first `.` of the data. */
  function ParseVoice(line: string): Result<(string, VoiceData), ScoreError>
  {
    var parts := Split(line, ':');
    if |parts| < 2 then Err(DataUndefined(line))
    else
      var v := Trim(parts[0]);
      var data := Trim(parts[1]);
      var pieces := Split(data, '.');
      var repeats := if |pieces| >= 2 then ParseInt(pieces[1]) else None;
      Ok((v, VoiceData(repeats, Steps(pieces[0]))))
  }

  /** What one line of the score contributes. */
  datatype Item = Blank | Bad(error: ScoreError) | Entry(name: string, data: VoiceData)

  /** An empty line is skipped; any other line goes through `parseVoice`. */
  function ItemOf(line: string): Item
  {
    if line == "" then Blank
    else
      match ParseVoice(line)
      case Err(e) => Bad(e)
      case Ok(entry) => Entry(entry.0, entry.1)
  }

  function Items(lines: seq<string>): (items: seq<Item>)
    ensures |items| == |lines|
  {
    seq(|lines|, k requires 0 <= k < |lines| => ItemOf(lines[k]))
  }

  /** The dictionary `parseScore` builds from the items of its lines,
      starting from `out`; the first bad line stops it. */
  function Collect(out: map<string, VoiceData>, items: seq<Item>): Result<map<string, VoiceData>, ScoreError>
    decreases |items|
  {
    if items == [] then Ok(out)
    else
      match items[0]
      case Blank => Collect(out, items[1..])
      case Bad(e) => Err(e)
      case Entry(v, d) => Collect(out[v := d], items[1..])
  }

  /** `parseScore`: the loop over the lines of the score writing into `out`. */
  method ParseScore(score: string) returns (r: Result<map<string, VoiceData>, ScoreError>)
    ensures r == Collect(map[], Items(Split(score, '\n')))
  {
    var out: map<string, VoiceData> := map[];
    var lines := Split(score, '\n');
    ghost var items := Items(lines);
    var i := 0;
    while i < |lines|
      invariant 0 <= i <= |lines|
      invariant Collect(out, items[i..]) == Collect(map[], items)
    {
      var line := lines[i];
      assert items[i..][0] == ItemOf(line);
      assert items[i..][1..] == items[i + 1..];
      if |line| > 0 {
        var parsed := ParseVoice(line);
        if parsed.Err? {
          return Err(parsed.error);
        }
        out := out[parsed.value.0 := parsed.value.1];
      }
      i := i + 1;
    }
    return Ok(out);
  }

  // ---------------------------------------------------------------------------
  // Properties
  // ---------------------------------------------------------------------------

  /** Item k is the last entry that names voice v. */
  predicate LastFor(items: seq<Item>, v: string, k: int)
  {
    0 <= k < |items| && items[k].Entry? && items[k].name == v
    && forall j :: k < j < |items| && items[j].Entry? ==> items[j].name != v
  }

  /** A line is bad exactly when it is non-empty and has no `:`. */
  lemma BadIffNoColon(line: string)
    ensures ItemOf(line).Bad? <==> line != "" && ':' !in line
  {
    if line != "" {
      ParseVoiceFailsIffNoColon(line);
    }
  }

  /** `parseVoice` fails exactly when the line has no `:`. */
  lemma ParseVoiceFailsIffNoColon(line: string)
    ensures ParseVoice(line).Err? <==> ':' !in line
  {
    if ':' !in line {
      SplitNoSeparator(line, ':');
    } else {
      var k := FirstIndex(line, ':');
      assert line == line[..k] + [':'] + line[k + 1..];
      SplitFirst(line[..k], line[k + 1..], ':');
    }
  }

  function FirstIndex(s: string, c: char): (k: nat)
    requires c in s
    ensures k < |s| && s[k] == c && c !in s[..k]
  {
    if s[0] == c then 0
    else
      assert c in s[1..];
      var k := FirstIndex(s[1..], c);
      assert s[..k + 1] == [s[0]] + s[1..][..k];
      k + 1
  }

  /** Starting from `out`: collecting fails exactly when some item is bad;
      on success every voice holds the data of its last entry, and the voices
      no entry names keep their entry in `out`. */
  lemma {:induction false} CollectSpec(out: map<string, VoiceData>, items: seq<Item>)
    ensures Collect(out, items).Err? <==> exists k :: 0 <= k < |items| && items[k].Bad?
    ensures Collect(out, items).Ok? ==>
      var m := Collect(out, items).value;
      (forall v :: v in m <==> v in out || exists k :: LastFor(items, v, k))
      && (forall v, k :: LastFor(items, v, k) ==> m[v] == items[k].data)
      && (forall v :: v in out && (forall k :: !LastFor(items, v, k)) ==> m[v] == out[v])
    decreases |items|
  {
    if items != [] {
      var tail := items[1..];
      assert forall k :: 0 < k < |items| ==> items[k] == tail[k - 1];
      match items[0]
      case Bad(e) =>
      case Blank =>
        CollectSpec(out, tail);
        ShiftLast(items);
        if Collect(out, items).Ok? {
          forall v, k | LastFor(tail, v, k) ensures LastFor(items, v, k + 1) { }
          forall v, k | LastFor(items, v, k) ensures LastFor(tail, v, k - 1) { }
        }
      case Entry(v0, d0) =>
        var out' := out[v0 := d0];
        CollectSpec(out', tail);
        ShiftLast(items);
        if Collect(out, items).Ok? {
          var m := Collect(out, items).value;
          forall v, k | LastFor(tail, v, k) ensures LastFor(items, v, k + 1) { }
          forall v ensures v in m <==> v in out || exists k :: LastFor(items, v, k) {
            if v == v0 && !exists k :: LastFor(tail, v, k) {
              assert LastFor(items, v, 0);
            }
            if v != v0 && exists k :: LastFor(items, v, k) {
              var k :| LastFor(items, v, k);
              assert LastFor(tail, v, k - 1);
            }
          }
          forall v, k | LastFor(items, v, k) ensures m[v] == items[k].data {
            if k > 0 {
              assert LastFor(tail, v, k - 1);
            }
          }
          assert exists k :: LastFor(items, v0, k) by {
            if !LastFor(items, v0, 0) {
              var k :| LastFor(tail, v0, k);
              assert LastFor(items, v0, k + 1);
            }
          }
        }
    }
  }

  /** How `LastFor` on a list of items relates to `LastFor` on its tail. */
  lemma ShiftLast(items: seq<Item>)
    requires |items| >= 1
    ensures forall v, k :: 0 < k ==> (LastFor(items, v, k) <==> LastFor(items[1..], v, k - 1))
    ensures forall v :: items[0].Entry? && items[0].name == v ==>
              (LastFor(items, v, 0) <==> forall k :: !LastFor(items[1..], v, k))
    ensures forall v :: !(items[0].Entry? && items[0].name == v) ==> !LastFor(items, v, 0)
  {
    var tail := items[1..];
    assert forall k :: 0 < k < |items| ==> items[k] == tail[k - 1];
    forall v | items[0].Entry? && items[0].name == v
      ensures LastFor(items, v, 0) <==> forall k :: !LastFor(tail, v, k)
    {
      if !LastFor(items, v, 0) {
        var j :| 0 < j < |items| && items[j].Entry? && items[j].name == v;
        var last := LastIndexFor(items, v, j);
        assert LastFor(tail, v, last - 1);
      }
    }
  }

  /** The last entry at or after j that names v. */
  function LastIndexFor(items: seq<Item>, v: string, j: nat): (k: nat)
    requires j < |items| && items[j].Entry? && items[j].name == v
    ensures j <= k && LastFor(items, v, k)
    decreases |items| - j
  {
    if exists i :: j < i < |items| && items[i].Entry? && items[i].name == v then
      var i :| j < i < |items| && items[i].Entry? && items[i].name == v;
      LastIndexFor(items, v, i)
    else j
  }

  /** The parsed score: it fails exactly when a non-empty line has no `:`;
      otherwise its voices are the names of the non-empty lines, each holding
      the data of the last line that names it. */
  lemma ParseScoreResult(lines: seq<string>)
    ensures Collect(map[], Items(lines)).Err? <==>
              exists k :: 0 <= k < |lines| && lines[k] != "" && ':' !in lines[k]
    ensures Collect(map[], Items(lines)).Ok? ==>
      var m := Collect(map[], Items(lines)).value;
      (forall v :: v in m <==> exists k :: LastFor(Items(lines), v, k))
      && (forall v, k :: LastFor(Items(lines), v, k) ==> m[v] == Items(lines)[k].data)
  {
    var items := Items(lines);
    CollectSpec(map[], items);
    forall k | 0 <= k < |lines| ensures items[k].Bad? <==> lines[k] != "" && ':' !in lines[k] {
      BadIffNoColon(lines[k]);
    }
  }

  function BracketCount(s: string): nat
  {
    if s == [] then 0 else (if IsBracket(s[0]) then 1 else 0) + BracketCount(s[1..])
  }

  /** One step per character that is not a bracket. */
  lemma {:induction false} StepsLength(s: string)
    ensures |Steps(s)| == |s| - BracketCount(s)
  {
    if s != [] {
      StepsLength(s[1..]);
    }
  }

  /** Without brackets, step i comes from character i: a space is -1 and a
      digit its value. */
  lemma {:induction false} StepsPointwise(s: string)
    requires forall i :: 0 <= i < |s| ==> !IsBracket(s[i])
    ensures |Steps(s)| == |s|
    ensures forall i :: 0 <= i < |s| ==> Steps(s)[i] == StepOf(s[i])
  {
    if s != [] {
      StepsPointwise(s[1..]);
    }
  }

  /** A space is -1 and a digit is its value. */
  lemma StepValues(c: char)
    ensures c == ' ' ==> StepOf(c) == Some(-1)
    ensures IsDigit(c) ==> StepOf(c) == Some(DigitValue(c))
  {
    if IsDigit(c) {
      ParseIntOfDigits([c]);
      assert DecimalValue([c]) == DigitValue(c);
    }
  }

  /** Text with exactly one separator splits into the two sides. */
  lemma SplitAroundOne(a: string, b: string, c: char)
    requires c !in a && c !in b
    ensures Split(a + [c] + b, c) == [a, b]
  {
    SplitNoSeparator(b, c);
    SplitFirst(a, b, c);
  }

  lemma ParseVoiceOfParts(line: string, name: string, data: string, sequence: string, repeats: string)
    requires Split(line, ':') == [name, data] && Trim(data) == data && Split(data, '.') == [sequence, repeats]
    ensures ParseVoice(line) == Ok((Trim(name), VoiceData(ParseInt(repeats), Steps(sequence))))
  {
  }

  /** A line `name:sequence.repeats` whose data needs no trimming parses to
      the trimmed name, the steps of the sequence and `parseInt` of the
      repeat count. */
  lemma WellFormedLine(name: string, sequence: string, repeats: string)
    requires ':' !in name && ':' !in sequence + "." + repeats
    requires '.' !in sequence && '.' !in repeats
    requires Trim(sequence + "." + repeats) == sequence + "." + repeats
    ensures ParseVoice(name + ":" + (sequence + "." + repeats))
         == Ok((Trim(name), VoiceData(ParseInt(repeats), Steps(sequence))))
  {
    var data := sequence + "." + repeats;
    SplitAroundOne(name, data, ':');
    SplitAroundOne(sequence, repeats, '.');
    ParseVoiceOfParts(name + ":" + data, name, data, sequence, repeats);
  }
}
