/** The Graphviz text the network prints for itself (net.py, Net.__str__). */
module Dot {

  ghost predicate IsDigits(s: string)
  {
    forall i :: 0 <= i < |s| ==> '0' <= s[i] <= '9'
  }

  function Digit(d: nat): (c: char)
    requires d < 10
    ensures '0' <= c <= '9' && c as int - '0' as int == d
  {
    ['0', '1', '2', '3', '4', '5', '6', '7', '8', '9'][d]
  }

  /** Python's str() of a non-negative integer: its decimal digits, most significant first. */
  function NatToString(n: nat): (s: string)
    ensures |s| > 0 && IsDigits(s)
  {
    if n < 10 then [Digit(n)] else NatToString(n / 10) + [Digit(n % 10)]
  }

  /** The number a string of decimal digits denotes. */
  function DecimalValue(s: string): nat
    requires IsDigits(s)
  {
    if |s| == 0 then 0 else DecimalValue(s[..|s| - 1]) * 10 + (s[|s| - 1] as int - '0' as int)
  }

  /** NatToString is read back as the number it prints, and has no leading zero. */
  lemma {:induction false} NatToStringRoundTrip(n: nat)
    ensures DecimalValue(NatToString(n)) == n
    ensures |NatToString(n)| > 1 ==> NatToString(n)[0] != '0'
  {
    if n >= 10 {
      NatToStringRoundTrip(n / 10);
      var s := NatToString(n);
      assert s[..|s| - 1] == NatToString(n / 10);
    }
  }

  /** The line declaring unit `uid` with its label. */
  function NodeLine(uid: nat, name: string): string
  {
    "n" + NatToString(uid) + " [label=\"" + name + "\"]\n"
  }

  /** The line for the edge uid -> nuid. */
  function EdgeLine(uid: nat, nuid: nat): string
  {
    "n" + NatToString(uid) + " -> n" + NatToString(nuid) + "\n"
  }

  /** The node lines of units 0..k-1. */
  function NodeLines(names: seq<string>, k: nat): string
    requires k <= |names|
  {
    if k == 0 then "" else NodeLines(names, k - 1) + NodeLine(k - 1, names[k - 1])
  }

  /** The edge lines from `uid` to the first j entries of its successor list. */
  function EdgeLinesOf(uid: nat, succs: seq<nat>, j: nat): string
    requires j <= |succs|
  {
    if j == 0 then "" else EdgeLinesOf(uid, succs, j - 1) + EdgeLine(uid, succs[j - 1])
  }

  /** The edge lines of units 0..k-1, each unit's in the order of its successor list. */
  function EdgeLines(adjacent: seq<seq<nat>>, k: nat): string
    requires k <= |adjacent|
  {
    if k == 0 then "" else EdgeLines(adjacent, k - 1) + EdgeLinesOf(k - 1, adjacent[k - 1], |adjacent[k - 1]|)
  }

  /** The whole text: a digraph header, one line per unit, one line per edge, and the closing brace. */
  function DotText(names: seq<string>, adjacent: seq<seq<nat>>): string
  {
    "digraph G {\n" + NodeLines(names, |names|) + EdgeLines(adjacent, |adjacent|) + "}\n"
  }

  /** The loop of Net.__str__ over the units: one node line each, in id order. */
  method WriteNodeLines(names: seq<string>) returns (s: string)
    ensures s == NodeLines(names, |names|)
  {
    s := "";
    var uid := 0;
    while uid < |names|
      invariant 0 <= uid <= |names|
      invariant s == NodeLines(names, uid)
    {
      var line := "n" + NatToString(uid) + " [label=\"" + names[uid] + "\"]\n";
      assert line == NodeLine(uid, names[uid]);
      s := s + line;
      uid := uid + 1;
    }
  }

  /** The inner loop of Net.__str__ over one unit's successor list. */
  method WriteEdgeLinesOf(uid: nat, succs: seq<nat>) returns (s: string)
    ensures s == EdgeLinesOf(uid, succs, |succs|)
  {
    s := "";
    var k := 0;
    while k < |succs|
      invariant 0 <= k <= |succs|
      invariant s == EdgeLinesOf(uid, succs, k)
    {
      var line := "n" + NatToString(uid) + " -> n" + NatToString(succs[k]) + "\n";
      assert line == EdgeLine(uid, succs[k]);
      s := s + line;
      k := k + 1;
    }
  }

  /** The loop of Net.__str__ over the forward adjacency lists, in id order. */
  method WriteEdgeLines(adjacent: seq<seq<nat>>) returns (s: string)
    ensures s == EdgeLines(adjacent, |adjacent|)
  {
    s := "";
    var uid := 0;
    while uid < |adjacent|
      invariant 0 <= uid <= |adjacent|
      invariant s == EdgeLines(adjacent, uid)
    {
      var lines := WriteEdgeLinesOf(uid, adjacent[uid]);
      s := s + lines;
      uid := uid + 1;
    }
  }

  /** The number of edges listed in the first k successor lists. */
  function EdgeCount(adjacent: seq<seq<nat>>, k: nat): nat
    requires k <= |adjacent|
  {
    if k == 0 then 0 else EdgeCount(adjacent, k - 1) + |adjacent[k - 1]|
  }

  function Newlines(s: string): nat
  {
    if |s| == 0 then 0 else Newlines(s[..|s| - 1]) + (if s[|s| - 1] == '\n' then 1 else 0)
  }

  lemma {:induction false} NewlinesAppend(a: string, b: string)
    ensures Newlines(a + b) == Newlines(a) + Newlines(b)
    decreases |b|
  {
    if |b| > 0 {
      assert (a + b)[..|a + b| - 1] == a + b[..|b| - 1];
      NewlinesAppend(a, b[..|b| - 1]);
    } else {
      assert a + b == a;
    }
  }

  lemma {:induction false} NewlinesNone(s: string)
    requires forall i :: 0 <= i < |s| ==> s[i] != '\n'
    ensures Newlines(s) == 0
  {
    if |s| > 0 {
      NewlinesNone(s[..|s| - 1]);
    }
  }

  /** A text made of a newline-free part and a final newline holds one newline. */
  lemma OneLine(body: string)
    requires forall i :: 0 <= i < |body| ==> body[i] != '\n'
    ensures Newlines(body + "\n") == 1
  {
    NewlinesAppend(body, "\n");
    NewlinesNone(body);
  }

  lemma NodeLineIsOneLine(uid: nat, name: string)
    requires forall i :: 0 <= i < |name| ==> name[i] != '\n'
    ensures Newlines(NodeLine(uid, name)) == 1
  {
    var body := "n" + NatToString(uid) + " [label=\"" + name + "\"]";
    assert NodeLine(uid, name) == body + "\n";
    OneLine(body);
  }

  lemma EdgeLineIsOneLine(uid: nat, nuid: nat)
    ensures Newlines(EdgeLine(uid, nuid)) == 1
  {
    var body := "n" + NatToString(uid) + " -> n" + NatToString(nuid);
    assert EdgeLine(uid, nuid) == body + "\n";
    OneLine(body);
  }

  lemma {:induction false} NodeLinesCount(names: seq<string>, k: nat)
    requires k <= |names|
    requires forall u, i :: 0 <= u < |names| && 0 <= i < |names[u]| ==> names[u][i] != '\n'
    ensures Newlines(NodeLines(names, k)) == k
  {
    if k > 0 {
      NodeLinesCount(names, k - 1);
      NewlinesAppend(NodeLines(names, k - 1), NodeLine(k - 1, names[k - 1]));
      NodeLineIsOneLine(k - 1, names[k - 1]);
    }
  }

  lemma {:induction false} EdgeLinesOfCount(uid: nat, succs: seq<nat>, j: nat)
    requires j <= |succs|
    ensures Newlines(EdgeLinesOf(uid, succs, j)) == j
  {
    if j > 0 {
      EdgeLinesOfCount(uid, succs, j - 1);
      NewlinesAppend(EdgeLinesOf(uid, succs, j - 1), EdgeLine(uid, succs[j - 1]));
      EdgeLineIsOneLine(uid, succs[j - 1]);
    }
  }

  lemma {:induction false} EdgeLinesCount(adjacent: seq<seq<nat>>, k: nat)
    requires k <= |adjacent|
    ensures Newlines(EdgeLines(adjacent, k)) == EdgeCount(adjacent, k)
  {
    if k > 0 {
      EdgeLinesCount(adjacent, k - 1);
      NewlinesAppend(EdgeLines(adjacent, k - 1), EdgeLinesOf(k - 1, adjacent[k - 1], |adjacent[k - 1]|));
      EdgeLinesOfCount(k - 1, adjacent[k - 1], |adjacent[k - 1]|);
    }
  }

  lemma HeaderIsOneLine()
    ensures Newlines("digraph G {\n") == 1
  {
    assert "digraph G {\n" == "digraph G {" + "\n";
    OneLine("digraph G {");
  }

  lemma FooterIsOneLine()
    ensures Newlines("}\n") == 1
  {
    assert "}\n" == "}" + "\n";
    OneLine("}");
  }

  /**
   * When no unit name holds a newline, the text has exactly one line per
   * unit and one per edge, plus the header and closing lines.
   */
  lemma DotTextLines(names: seq<string>, adjacent: seq<seq<nat>>)
    requires forall u, i :: 0 <= u < |names| && 0 <= i < |names[u]| ==> names[u][i] != '\n'
    ensures Newlines(DotText(names, adjacent)) == 2 + |names| + EdgeCount(adjacent, |adjacent|)
  {
    var nodes, edges := NodeLines(names, |names|), EdgeLines(adjacent, |adjacent|);
    HeaderIsOneLine();
    FooterIsOneLine();
    NodeLinesCount(names, |names|);
    EdgeLinesCount(adjacent, |adjacent|);
    NewlinesAppend("digraph G {\n", nodes);
    NewlinesAppend("digraph G {\n" + nodes, edges);
    NewlinesAppend("digraph G {\n" + nodes + edges, "}\n");
  }
}
