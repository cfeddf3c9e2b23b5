/**
 * The pairs-list mini-format the step reads its fields and buttons from:
 * one `name|value` entry per line, split at the first pipe; lines without
 * a pipe or with an empty side are dropped. The three `pairs` loops of the
 * step (message.go, main.go, lib/slack/message_util.go) all compute PairsOf.
 */
module PairsFormat {
  import opened Wrappers
  import opened GoStrings

  /** One parsed entry: Go's [2]string{name, value}. */
  datatype Pair = Pair(name: string, value: string)

  /** The line an entry is written as. */
  function PairLine(p: Pair): string {
    p.name + "|" + p.value
  }

  /** An entry the format can hold: a non-empty name without a pipe, and a non-empty value. */
  predicate WellFormed(p: Pair) {
    p.name != "" && '|' !in p.name && p.value != ""
  }

  /**
   * What one line contributes: strings.SplitN(line, "|", 2), kept only when
   * it has two parts and neither is empty.
   */
  function LinePair(line: string): (r: Option<Pair>)
    ensures r.Some? ==> WellFormed(r.value) && PairLine(r.value) == line
  {
    var a := SplitN2(line, '|');
    if |a| == 2 && a[0] != "" && a[1] != "" then Some(Pair(a[0], a[1])) else None
  }

  /** The first pipe of a line written as name|value is the one after the name. */
  lemma FirstPipe(l: string, v: string)
    requires '|' !in l
    ensures IndexOf(l + "|" + v, '|') == |l|
  {
    var s := l + "|" + v;
    assert s[|l|] == '|';
    assert s[..|l|] == l;
  }

  /**
   * A line yields the entry (l, v) exactly when it is l|v written out and
   * (l, v) is well formed: the split at the first pipe is the only reading.
   */
  lemma LinePairIff(line: string, l: string, v: string)
    ensures LinePair(line) == Some(Pair(l, v)) <==> (line == PairLine(Pair(l, v)) && WellFormed(Pair(l, v)))
  {
    if line == PairLine(Pair(l, v)) && WellFormed(Pair(l, v)) {
      FirstPipe(l, v);
      var a := SplitN2(line, '|');
      assert '|' in line by { assert line[|l|] == '|'; }
      assert line[..|l|] == l && line[|l| + 1..] == v;
    }
  }

  /** A line without a pipe yields nothing. */
  lemma NoPipeDropped(line: string)
    requires '|' !in line
    ensures LinePair(line) == None
  {
  }

  /** A line whose first pipe is its last character has an empty value and yields nothing. */
  lemma EmptyValueDropped(l: string)
    requires '|' !in l
    ensures LinePair(l + "|") == None
  {
    FirstPipe(l, "");
    assert l + "|" + "" == l + "|";
  }

  /** A line starting with a pipe has an empty name and yields nothing. */
  lemma EmptyLabelDropped(v: string)
    ensures LinePair("|" + v) == None
  {
    FirstPipe("", v);
    assert "" + "|" + v == "|" + v;
  }

  /**
   * The entries of a sequence of lines, in line order: each line that
   * LinePair reads contributes its entry. There are at most as many entries
   * as lines, and all are well formed.
   */
  function PairsOfLines(lines: seq<string>): (r: seq<Pair>)
    ensures |r| <= |lines|
    ensures forall k :: 0 <= k < |r| ==> WellFormed(r[k])
    decreases |lines|
  {
    if lines == [] then []
    else
      var init := PairsOfLines(lines[..|lines| - 1]);
      match LinePair(lines[|lines| - 1])
      case Some(p) => init + [p]
      case None => init
  }

  /** pairs(s): the entries of the lines of s (strings.Split(s, "\n")). */
  function PairsOf(s: string): seq<Pair> {
    PairsOfLines(Split(s, '\n'))
  }

  /** Parsing distributes over concatenated line lists: each line is read on its own. */
  lemma {:induction false} PairsOfLinesAppend(a: seq<string>, b: seq<string>)
    ensures PairsOfLines(a + b) == PairsOfLines(a) + PairsOfLines(b)
    decreases |b|
  {
    if b != [] {
      var b' := b[..|b| - 1];
      PairsOfLinesAppend(a, b');
      assert (a + b)[..|a + b| - 1] == a + b';
      assert (a + b)[|a + b| - 1] == b[|b| - 1];
    } else {
      assert a + b == a;
    }
  }

  /** The positions of the lines that yield an entry, in increasing order. */
  function Origins(lines: seq<string>): (idx: seq<nat>)
    ensures |idx| == |PairsOfLines(lines)|
    ensures forall k :: 0 <= k < |idx| ==> idx[k] < |lines|
    decreases |lines|
  {
    if lines == [] then []
    else
      var n := |lines| - 1;
      Origins(lines[..n]) + (if LinePair(lines[n]).Some? then [n] else [])
  }

  /** Entry k is what line Origins(lines)[k] yields. */
  lemma {:induction false} OriginsSound(lines: seq<string>)
    ensures forall k :: 0 <= k < |Origins(lines)| ==>
      LinePair(lines[Origins(lines)[k]]) == Some(PairsOfLines(lines)[k])
    decreases |lines|
  {
    if lines != [] {
      var n := |lines| - 1;
      var init := lines[..n];
      OriginsSound(init);
      var prev, idx := Origins(init), Origins(lines);
      var before, r := PairsOfLines(init), PairsOfLines(lines);
      forall k | 0 <= k < |idx| ensures LinePair(lines[idx[k]]) == Some(r[k]) {
        if k < |prev| {
          assert idx[k] == prev[k] && r[k] == before[k];
          assert init[prev[k]] == lines[prev[k]];
        }
      }
    }
  }

  /** The entries keep the order of their lines. */
  lemma {:induction false} OriginsIncreasing(lines: seq<string>)
    ensures forall k, m :: 0 <= k < m < |Origins(lines)| ==> Origins(lines)[k] < Origins(lines)[m]
    decreases |lines|
  {
    if lines != [] {
      var n := |lines| - 1;
      OriginsIncreasing(lines[..n]);
      var prev, idx := Origins(lines[..n]), Origins(lines);
      forall k, m | 0 <= k < m < |idx| ensures idx[k] < idx[m] {
        assert idx[k] == prev[k];
        if m < |prev| {
          assert idx[m] == prev[m];
        }
      }
    }
  }

  /** Every line that LinePair reads yields an entry: none is skipped. */
  lemma {:induction false} OriginsComplete(lines: seq<string>)
    ensures forall j :: 0 <= j < |lines| && LinePair(lines[j]).Some? ==> j in Origins(lines)
    decreases |lines|
  {
    if lines != [] {
      var n := |lines| - 1;
      var init := lines[..n];
      OriginsComplete(init);
      var prev, idx := Origins(init), Origins(lines);
      forall j | 0 <= j < n && LinePair(lines[j]).Some? ensures j in idx {
        assert init[j] == lines[j];
        assert j in prev;
      }
      if LinePair(lines[n]).Some? {
        assert idx[|prev|] == n;
      }
    }
  }

  /**
   * pairs keeps exactly the lines LinePair reads, in line order: entry k
   * comes from line Origins(lines)[k], the positions increase, and every
   * line that yields an entry is among them.
   */
  lemma PairsOrigin(lines: seq<string>)
    ensures var idx, r := Origins(lines), PairsOfLines(lines);
      && |idx| == |r|
      && (forall k :: 0 <= k < |idx| ==> idx[k] < |lines| && LinePair(lines[idx[k]]) == Some(r[k]))
      && (forall k, m :: 0 <= k < m < |idx| ==> idx[k] < idx[m])
      && (forall j :: 0 <= j < |lines| && LinePair(lines[j]).Some? ==> j in idx)
  {
    OriginsSound(lines);
    OriginsIncreasing(lines);
    OriginsComplete(lines);
  }

  /** The lines a sequence of entries is written as. */
  function LinesOf(ps: seq<Pair>): (r: seq<string>)
    ensures |r| == |ps|
    ensures forall k :: 0 <= k < |ps| ==> r[k] == PairLine(ps[k])
    decreases |ps|
  {
    if ps == [] then [] else LinesOf(ps[..|ps| - 1]) + [PairLine(ps[|ps| - 1])]
  }

  /** The pairs list that writes the entries out one per line. */
  function Render(ps: seq<Pair>): string {
    Join(LinesOf(ps), '\n')
  }

  /** An entry that can be written on one line and read back. */
  predicate Writable(p: Pair) {
    WellFormed(p) && '\n' !in p.name && '\n' !in p.value
  }

  lemma {:induction false} PairsOfLinesOf(ps: seq<Pair>)
    requires forall k :: 0 <= k < |ps| ==> WellFormed(ps[k])
    ensures PairsOfLines(LinesOf(ps)) == ps
    decreases |ps|
  {
    if ps != [] {
      var n := |ps| - 1;
      assert ps == ps[..n] + [ps[n]];
      PairsOfLinesOf(ps[..n]);
      assert LinePair(PairLine(ps[n])) == Some(ps[n]) by {
        LinePairIff(PairLine(ps[n]), ps[n].name, ps[n].value);
      }
      PairsOfLinesSnoc(LinesOf(ps[..n]), PairLine(ps[n]));
    }
  }

  /** Reading one more line adds that line's entry, if it has one, at the end. */
  lemma PairsOfLinesSnoc(front: seq<string>, last: string)
    ensures PairsOfLines(front + [last]) ==
      PairsOfLines(front) + match LinePair(last) case Some(p) => [p] case None => []
  {
    assert (front + [last])[..|front|] == front;
  }

  /** Reading a rendered list of writable entries gives the entries back. */
  lemma RenderRoundTrip(ps: seq<Pair>)
    requires forall k :: 0 <= k < |ps| ==> Writable(ps[k])
    ensures PairsOf(Render(ps)) == ps
  {
    if ps == [] {
      assert Render(ps) == "";
      assert Split("", '\n') == [""];
      assert LinePair("") == None;
      assert [""][..0] == [];
    } else {
      var lines := LinesOf(ps);
      forall k | 0 <= k < |lines| ensures '\n' !in lines[k] {
        assert lines[k] == ps[k].name + "|" + ps[k].value;
      }
      SplitJoin(lines, '\n');
      PairsOfLinesOf(ps);
    }
  }

  /**
   * Every entry of pairs(s) is well formed and, written out, is one of the
   * lines of s; there are no more entries than lines.
   */
  lemma PairsOfShape(s: string)
    ensures var lines, r := Split(s, '\n'), PairsOf(s);
      && |r| <= |lines|
      && forall k :: 0 <= k < |r| ==> WellFormed(r[k]) && PairLine(r[k]) in lines
  {
    var lines := Split(s, '\n');
    OriginsSound(lines);
    var idx, r := Origins(lines), PairsOf(s);
    forall k | 0 <= k < |r| ensures PairLine(r[k]) in lines {
      assert LinePair(lines[idx[k]]) == Some(r[k]);
    }
  }

  /** A value may itself hold pipes: only the first pipe of a line splits it. */
  lemma ValueKeepsPipes()
    ensures PairsOf("a|b|c") == [Pair("a", "b|c")]
  {
    assert "a|b|c" == "a" + "|" + "b|c";
    LinePairIff("a|b|c", "a", "b|c");
    SplitPrefix("a|b|c", "", '\n');
    assert "a|b|c" + "" == "a|b|c";
  }

  /** A single line yields its entry, if LinePair reads one. */
  lemma PairsOfOneLine(line: string)
    ensures PairsOfLines([line]) == match LinePair(line) case Some(p) => [p] case None => []
  {
    assert [line][..0] == [];
  }

  /** The four lines of the example below. */
  lemma ExampleLines(l1: string, l2: string, l3: string, l4: string)
    requires l1 == "a|b" && l2 == "no-pipe-line" && l3 == "c|" && l4 == "|d"
    ensures Split("a|b\nno-pipe-line\nc|\n|d", '\n') == [l1, l2, l3, l4]
  {
    var lines := [l1, l2, l3, l4];
    assert Join(lines[3..], '\n') == l4;
    assert Join(lines[2..], '\n') == l3 + "\n" + l4 by { assert lines[2..][1..] == lines[3..]; }
    assert Join(lines[1..], '\n') == l2 + "\n" + l3 + "\n" + l4 by { assert lines[1..][1..] == lines[2..]; }
    assert Join(lines, '\n') == "a|b\nno-pipe-line\nc|\n|d";
    SplitJoin(lines, '\n');
  }

  /**
   * Lines without a pipe, with an empty value or with an empty name are
   * dropped: of "a|b", "no-pipe-line", "c|" and "|d" only the first is kept.
   */
  lemma MalformedLinesDropped()
    ensures PairsOf("a|b\nno-pipe-line\nc|\n|d") == [Pair("a", "b")]
  {
    var l1, l2, l3, l4 := "a|b", "no-pipe-line", "c|", "|d";
    assert '|' !in l2;
    assert l1 == "a" + "|" + "b" && l3 == "c" + "|" && l4 == "|" + "d";
    OnlyWellFormedKept("a", "b", l2, "c", "d");
    ExampleLines(l1, l2, l3, l4);
  }

  /**
   * Of a well-formed line, a line without a pipe, a line with an empty value
   * and a line with an empty name, only the first yields an entry.
   */
  lemma OnlyWellFormedKept(a: string, b: string, noPipe: string, c: string, d: string)
    requires WellFormed(Pair(a, b)) && '|' !in noPipe && '|' !in c
    ensures PairsOfLines([a + "|" + b, noPipe, c + "|", "|" + d]) == [Pair(a, b)]
  {
    var l1, l2, l3, l4 := a + "|" + b, noPipe, c + "|", "|" + d;
    assert LinePair(l1) == Some(Pair(a, b)) by { LinePairIff(l1, a, b); }
    assert LinePair(l2) == None by { NoPipeDropped(l2); }
    assert LinePair(l3) == None by { EmptyValueDropped(c); }
    assert LinePair(l4) == None by { EmptyLabelDropped(d); }
    PairsOfLinesSnoc([], l1);
    assert [] + [l1] == [l1];
    PairsOfLinesSnoc([l1], l2);
    assert [l1] + [l2] == [l1, l2];
    PairsOfLinesSnoc([l1, l2], l3);
    assert [l1, l2] + [l3] == [l1, l2, l3];
    PairsOfLinesSnoc([l1, l2, l3], l4);
    assert [l1, l2, l3] + [l4] == [l1, l2, l3, l4];
  }

  /** A string without a newline is one line. */
  lemma SingleLine(s: string)
    requires '\n' !in s
    ensures Split(s, '\n') == [s]
  {
    SplitJoin([s], '\n');
  }

  /** A one-line list holding a well-formed entry gives exactly that entry. */
  lemma OneEntry(name: string, value: string)
    requires WellFormed(Pair(name, value)) && '\n' !in name && '\n' !in value
    ensures PairsOf(name + "|" + value) == [Pair(name, value)]
  {
    var s := name + "|" + value;
    assert '\n' !in s by {
      forall i | 0 <= i < |s| ensures s[i] != '\n' {
        if i < |name| { assert s[i] == name[i]; }
        else if i > |name| { assert s[i] == value[i - |name| - 1]; }
      }
    }
    SingleLine(s);
    LinePairIff(s, name, value);
    PairsOfOneLine(s);
  }
}
