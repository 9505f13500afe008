// `newick_to_json` of bioflowsutils.utils: a Newick tree string read into
// nested label / distance / children records.
module Newick {
  import opened Wrappers
  import opened PyStr
  import opened BaseWrappers

  /**
   * What `newick_to_json` returns: a leaf {"label", "distance"}, the plain
   * list of items of a parenthesis-free comma list, or a node {"label",
   * "distance", "tree"} with its children.
   */
  datatype Json =
    | Leaf(name: string, distance: string)
    | Names(items: seq<string>)
    | Node(name: string, distance: string, tree: seq<Json>)

  /** `s.replace(c, "")` for a single character. */
  function RemoveChar(s: string, c: char): (r: string)
    ensures c !in r && |r| <= |s|
    ensures c !in s ==> r == s
    decreases |s|
  {
    if s == [] then "" else (if s[0] == c then "" else [s[0]]) + RemoveChar(s[1..], c)
  }

  /** The label before the first ':' and the distance after it; all of `t` and "" without a ':'. */
  function LabelDistance(t: string): (r: (string, string))
    ensures ':' !in r.0
    ensures ':' in t ==> r.0 + ":" + r.1 == t
    ensures ':' !in t ==> r == (t, "")
  {
    match IndexOf(t, ':')
    case None => (t, "")
    case Some(i) =>
      assert t[..i] + ":" + t[i + 1..] == t;
      (t[..i], t[i + 1..])
  }

  // ---------------------------------------------------------------------
  // parseNode
  // ---------------------------------------------------------------------

  /**
   * The character loop of `parseNode` from position `p`, with `count` open
   * parentheses and the text `processed` kept so far. The first '(' that
   * opens depth 1 is skipped; the ')' that closes it stops the loop and
   * `tree` becomes the text from `index + 2` on (index is the length of
   * `processed`). Commas not at depth 1 are kept as '|'.
   */
  function Scan(s: string, p: nat, count: int, processed: string): (r: (string, string))
    requires p <= |s|
    decreases |s| - p
  {
    if p == |s| then (processed, "")
    else
      var c := s[p];
      var count' := if c == '(' then count + 1 else if c == ')' then count - 1 else count;
      if c == '(' && count' == 1 then Scan(s, p + 1, count', processed)
      else if c == ')' && count' == 0 then
        (processed, if |processed| + 2 > |s| then "" else s[|processed| + 2..])
      else Scan(s, p + 1, count', processed + [if c == ',' && count' != 1 then '|' else c])
  }

  /** Every kept '|' turned back into ','. */
  function Unbar(data: seq<string>): (r: seq<string>)
    ensures |r| == |data|
    ensures forall i :: 0 <= i < |data| ==> r[i] == ReplaceChar(data[i], '|', ',')
  {
    seq(|data|, i requires 0 <= i < |data| => ReplaceChar(data[i], '|', ','))
  }

  /** `parseNode(s)`: the label and distance after the outermost ')', and the depth-1 items. */
  function ParseNode(s: string): (string, string, seq<string>) {
    var (processed, tree) := Scan(s, 0, 0, "");
    var (name, distance) := LabelDistance(StripWs(tree));
    (name, distance, Unbar(Split(processed, ',')))
  }

  /** `parseNode` as written: the character loop with its `continue` and `break`, then the '|' loop. */
  method ParseNodeLoop(s: string) returns (name: string, distance: string, data: seq<string>)
    ensures (name, distance, data) == ParseNode(s)
  {
    var parenCount := 0;
    var tree := "";
    var processed := "";
    var index := 0;
    var p := 0;
    while p < |s|
      invariant p <= |s| && index == |processed| && tree == ""
      invariant Scan(s, 0, 0, "") == Scan(s, p, parenCount, processed)
      decreases |s| - p
    {
      var c := s[p];
      if c == '(' {
        parenCount := parenCount + 1;
        if parenCount == 1 {
          p := p + 1;
          continue;
        }
      } else if c == ')' {
        parenCount := parenCount - 1;
        if parenCount == 0 {
          if index + 2 > |s| {
            assert Scan(s, 0, 0, "") == (processed, tree);
            break;
          } else {
            tree := s[index + 2..];
            assert Scan(s, 0, 0, "") == (processed, tree);
            break;
          }
        }
      }
      if c == ',' {
        if parenCount != 1 {
          processed := processed + "|";
        } else {
          processed := processed + ",";
        }
      } else {
        processed := processed + [c];
      }
      index := index + 1;
      p := p + 1;
    }
    assert Scan(s, 0, 0, "") == (processed, tree);
    var pieces := Split(processed, ',');
    data := pieces;
    for i := 0 to |data|
      invariant |data| == |pieces|
      invariant forall k :: 0 <= k < |data| ==> data[k] == if k < i then ReplaceChar(pieces[k], '|', ',') else pieces[k]
    {
      data := data[i := ReplaceChar(data[i], '|', ',')];
    }
    assert data == Unbar(pieces);
    name, distance := LabelDistance(StripWs(tree)).0, LabelDistance(StripWs(tree)).1;
  }

  // ---------------------------------------------------------------------
  // newick_to_json
  // ---------------------------------------------------------------------

  /**
   * `newick_to_json(s)`. A child as long as its parent string is the parent
   * itself again, on which Python recurses until its recursion limit.
   */
  function NewickToJson(s: string): (r: Result<Json>)
    decreases |s|, 1
  {
    var s1 := RemoveChar(s, ';');
    if '(' !in s1 then
      if |Split(s1, ',')| == 1 then
        var (name, distance) := LabelDistance(s1);
        Success(Leaf(name, distance))
      else Success(Names(Split(s1, ',')))
    else
      var (name, distance, data) := ParseNode(s1);
      if exists i :: 0 <= i < |data| && |data[i]| >= |s1| then
        Failure("RuntimeError: maximum recursion depth exceeded")
      else
        match Children(data, |s1|)
        case Failure(e) => Failure(e)
        case Success(kids) => Success(Node(name, distance, kids))
  }

  /** `[newick_to_json(item) for item in data]`, stopping at the first failure. */
  function Children(items: seq<string>, n: nat): (r: Result<seq<Json>>)
    requires forall i :: 0 <= i < |items| ==> |items[i]| < n
    decreases n, 0, |items|
  {
    if items == [] then Success([])
    else
      match NewickToJson(items[0])
      case Failure(e) => Failure(e)
      case Success(j) =>
        match Children(items[1..], n)
        case Failure(e) => Failure(e)
        case Success(js) => Success([j] + js)
  }

  /** The children succeed exactly when every item does, and are the items' trees in order. */
  lemma {:induction false} ChildrenFacts(items: seq<string>, n: nat)
    requires forall i :: 0 <= i < |items| ==> |items[i]| < n
    ensures Children(items, n).Success? <==> forall i :: 0 <= i < |items| ==> NewickToJson(items[i]).Success?
    ensures Children(items, n).Success? ==>
      |Children(items, n).value| == |items| &&
      forall i :: 0 <= i < |items| ==> Children(items, n).value[i] == NewickToJson(items[i]).value
    decreases |items|
  {
    if items != [] {
      ChildrenFacts(items[1..], n);
      assert forall i :: 1 <= i < |items| ==> items[i] == items[1..][i - 1];
    }
  }

  /** A string splits into one field exactly when it has no separator. */
  lemma {:induction false} SplitOne(s: string, c: char)
    ensures |Split(s, c)| == 1 <==> c !in s
    decreases |s|
  {
    if s != [] {
      SplitOne(s[1..], c);
    }
  }

  /** Without parentheses or commas, the string is one leaf split at its first ':'. */
  lemma LeafItem(s: string)
    requires '(' !in s && ',' !in s && ';' !in s
    ensures NewickToJson(s).Success? && NewickToJson(s).value.Leaf?
    ensures ':' !in NewickToJson(s).value.name
    ensures ':' in s ==> NewickToJson(s).value.name + ":" + NewickToJson(s).value.distance == s
    ensures ':' !in s ==> NewickToJson(s).value == Leaf(s, "")
  {
    SplitOne(s, ',');
  }

  /** Without parentheses, a comma list is returned as its items, not as trees. */
  lemma NameList(s: string)
    requires '(' !in s && ',' in s && ';' !in s
    ensures NewickToJson(s).Success? && NewickToJson(s).value.Names?
    ensures var items := NewickToJson(s).value.items;
      |items| >= 2 && Join(",", items) == s && forall k :: 0 <= k < |items| ==> ',' !in items[k]
  {
    SplitOne(s, ',');
    JoinSplit(s, ',');
    SplitFields(s, ',');
  }

  /** Every ';' is dropped first, so only the rest of the string counts. */
  lemma SemicolonsIgnored(s: string)
    ensures NewickToJson(s) == NewickToJson(RemoveChar(s, ';'))
  {
  }

  // ---------------------------------------------------------------------
  // Parenthesis depth and the depth-1 split
  // ---------------------------------------------------------------------

  /** The number of '(' minus the number of ')' in `s`. */
  function Depth(s: string): int
    decreases |s|
  {
    if s == [] then 0
    else Depth(s[..|s| - 1]) + (if s[|s| - 1] == '(' then 1 else if s[|s| - 1] == ')' then -1 else 0)
  }

  /** No prefix closes more parentheses than it opens, and the whole closes all it opens. */
  predicate Balanced(s: string) {
    (forall k :: 0 <= k <= |s| ==> Depth(s[..k]) >= 0) && Depth(s) == 0
  }

  /** Every comma of `s` lies inside parentheses. */
  predicate Nested(s: string) {
    forall k :: 0 <= k < |s| && s[k] == ',' ==> Depth(s[..k]) > 0
  }

  /** `s` with every comma inside parentheses turned into '|'. */
  function Marked(s: string): (r: string)
    ensures |r| == |s|
  {
    seq(|s|, k requires 0 <= k < |s| => if s[k] == ',' && Depth(s[..k]) != 0 then '|' else s[k])
  }

  lemma {:induction false} DepthConcat(x: string, y: string)
    ensures Depth(x + y) == Depth(x) + Depth(y)
    decreases |y|
  {
    if y != [] {
      var y' := y[..|y| - 1];
      assert (x + y)[..|x + y| - 1] == x + y';
      DepthConcat(x, y');
    } else {
      assert x + y == x;
    }
  }

  lemma DepthStep(s: string, k: nat)
    requires k < |s|
    ensures Depth(s[..k + 1]) == Depth(s[..k]) + (if s[k] == '(' then 1 else if s[k] == ')' then -1 else 0)
  {
    assert s[..k + 1][..k] == s[..k];
  }

  /** Behind a prefix that closes all it opens, the marks of the rest are its own. */
  lemma MarkedConcat(x: string, y: string)
    requires Depth(x) == 0
    ensures Marked(x + y) == Marked(x) + Marked(y)
  {
    var s := x + y;
    forall k | 0 <= k < |s| ensures Marked(s)[k] == (Marked(x) + Marked(y))[k] {
      if k < |x| {
        assert s[..k] == x[..k];
      } else {
        var j := k - |x|;
        assert s[..k] == x + y[..j];
        DepthConcat(x, y[..j]);
      }
    }
  }

  lemma BalancedConcat(x: string, y: string)
    requires Balanced(x) && Balanced(y)
    ensures Balanced(x + y)
  {
    var s := x + y;
    forall k | 0 <= k <= |s| ensures Depth(s[..k]) >= 0 {
      if k <= |x| {
        assert s[..k] == x[..k];
      } else {
        assert s[..k] == x + y[..k - |x|];
        DepthConcat(x, y[..k - |x|]);
      }
    }
    assert s[..|s|] == s && x[..|x|] == x && y[..|y|] == y;
    DepthConcat(x, y);
  }

  lemma CommaFacts()
    ensures Balanced(",") && Marked(",") == ","
  {
    assert ","[..0] == "" && ","[..1] == ",";
    assert Depth(",") == Depth("") + 0;
  }

  /** Comma-joined balanced pieces are balanced, and their marks are the pieces' marks joined by commas. */
  lemma {:induction false} MarkedJoin(pieces: seq<string>)
    requires |pieces| >= 1
    requires forall i :: 0 <= i < |pieces| ==> Balanced(pieces[i])
    ensures Balanced(Join(",", pieces))
    ensures Marked(Join(",", pieces)) == Join(",", seq(|pieces|, i requires 0 <= i < |pieces| => Marked(pieces[i])))
    decreases |pieces|
  {
    var ms := seq(|pieces|, i requires 0 <= i < |pieces| => Marked(pieces[i]));
    if |pieces| > 1 {
      var rest := pieces[1..];
      var ms' := seq(|rest|, i requires 0 <= i < |rest| => Marked(rest[i]));
      MarkedJoin(rest);
      assert ms[1..] == ms';
      var a := pieces[0];
      var b := Join(",", rest);
      assert Join(",", pieces) == (a + ",") + b;
      CommaFacts();
      BalancedConcat(a, ",");
      BalancedConcat(a + ",", b);
      assert a[..|a|] == a;
      MarkedConcat(a, ",");
      assert (a + ",")[..|a + ","|] == a + ",";
      MarkedConcat(a + ",", b);
    }
  }

  /** Marking only turns commas into '|', so a '|'-free string comes back from its marks. */
  lemma UnmarkMarked(s: string)
    requires '|' !in s
    ensures ReplaceChar(Marked(s), '|', ',') == s
  {
  }

  /** The marks of a piece whose commas are all nested hold no comma. */
  lemma NestedMarked(s: string)
    requires Nested(s)
    ensures ',' !in Marked(s)
  {
  }

  /**
   * The loop run over "(" + body + ")" + tail with a balanced body keeps the
   * body's marks and stops at the ')' after it, leaving `tail` as the tree.
   */
  lemma {:induction false} ScanBody(s: string, body: string, tail: string, k: nat)
    requires s == "(" + body + ")" + tail && Balanced(body) && k <= |body|
    ensures Scan(s, 1 + k, 1 + Depth(body[..k]), Marked(body)[..k]) == (Marked(body), tail)
    decreases |body| - k
  {
    if k == |body| {
      ScanBodyEnd(s, body, tail);
    } else {
      ScanBodyStep(s, body, tail, k);
      ScanBody(s, body, tail, k + 1);
    }
  }

  /** At the ')' after a balanced body the loop stops with the body's marks and the rest as the tree. */
  lemma ScanBodyEnd(s: string, body: string, tail: string)
    requires s == "(" + body + ")" + tail && Balanced(body)
    ensures Scan(s, 1 + |body|, 1 + Depth(body[..|body|]), Marked(body)[..|body|]) == (Marked(body), tail)
  {
    var m := Marked(body);
    assert s[1 + |body|] == ')';
    assert body[..|body|] == body && m[..|body|] == m;
    assert s[|body| + 2..] == tail;
  }

  /** Inside a balanced body the loop takes one more character's mark. */
  lemma ScanBodyStep(s: string, body: string, tail: string, k: nat)
    requires s == "(" + body + ")" + tail && Balanced(body) && k < |body|
    ensures Scan(s, 1 + k, 1 + Depth(body[..k]), Marked(body)[..k]) ==
      Scan(s, 2 + k, 1 + Depth(body[..k + 1]), Marked(body)[..k + 1])
  {
    var m := Marked(body);
    assert s[1 + k] == body[k];
    DepthStep(body, k);
    assert Depth(body[..k]) >= 0 && Depth(body[..k + 1]) >= 0;
    assert m[..k] + [m[k]] == m[..k + 1];
  }

  /** The first character '(' opens depth 1 and is skipped. */
  lemma ScanStart(s: string)
    requires s != [] && s[0] == '('
    ensures Scan(s, 0, 0, "") == Scan(s, 1, 1, "")
  {
  }

  /** Splitting the marks of comma-joined pieces at their commas, and unmarking, gives back the pieces. */
  lemma SplitMarked(pieces: seq<string>)
    requires |pieces| >= 1
    requires forall i :: 0 <= i < |pieces| ==> Balanced(pieces[i]) && Nested(pieces[i]) && '|' !in pieces[i]
    ensures Unbar(Split(Marked(Join(",", pieces)), ',')) == pieces
  {
    var ms := seq(|pieces|, i requires 0 <= i < |pieces| => Marked(pieces[i]));
    MarkedJoin(pieces);
    forall i | 0 <= i < |pieces| ensures ',' !in ms[i] {
      NestedMarked(pieces[i]);
    }
    SplitJoin(ms, ',');
    forall i | 0 <= i < |pieces| ensures ReplaceChar(ms[i], '|', ',') == pieces[i] {
      UnmarkMarked(pieces[i]);
    }
    assert Unbar(ms) == pieces;
  }

  /** `parseNode` over "(" + the comma-joined pieces + ")" + tail gives back the pieces and the tail's label. */
  lemma ParseNodeRoundTrip(pieces: seq<string>, tail: string)
    requires |pieces| >= 1
    requires forall i :: 0 <= i < |pieces| ==> Balanced(pieces[i]) && Nested(pieces[i]) && '|' !in pieces[i]
    ensures var ld := LabelDistance(StripWs(tail));
      ParseNode("(" + Join(",", pieces) + ")" + tail) == (ld.0, ld.1, pieces)
  {
    var body := Join(",", pieces);
    MarkedJoin(pieces);
    ScanNode(body, tail);
    SplitMarked(pieces);
  }

  /** The loop over "(" + a balanced body + ")" + tail keeps the body's marks and leaves `tail` as the tree. */
  lemma ScanNode(body: string, tail: string)
    requires Balanced(body)
    ensures Scan("(" + body + ")" + tail, 0, 0, "") == (Marked(body), tail)
  {
    var s := "(" + body + ")" + tail;
    ScanBody(s, body, tail, 0);
    assert body[..0] == "" && Marked(body)[..0] == "";
    ScanStart(s);
  }

  /**
   * A node written as "(" + the comma-joined children + ")" + its label
   * text, with balanced children whose own commas are nested, reads back
   * as exactly those children: the split happens at the depth-1 commas
   * only, and the label and distance come from the text after the matching
   * ')'.
   */
  lemma NodeRoundTrip(pieces: seq<string>, tail: string)
    requires |pieces| >= 1
    requires forall i :: 0 <= i < |pieces| ==>
      Balanced(pieces[i]) && Nested(pieces[i]) && '|' !in pieces[i] && ';' !in pieces[i]
    requires ';' !in tail
    ensures var s := "(" + Join(",", pieces) + ")" + tail;
      var ld := LabelDistance(StripWs(tail));
      && (NewickToJson(s).Success? <==> forall i :: 0 <= i < |pieces| ==> NewickToJson(pieces[i]).Success?)
      && (NewickToJson(s).Success? ==>
            && NewickToJson(s).value.Node?
            && NewickToJson(s).value.name == ld.0
            && NewickToJson(s).value.distance == ld.1
            && |NewickToJson(s).value.tree| == |pieces|
            && forall i :: 0 <= i < |pieces| ==> NewickToJson(s).value.tree[i] == NewickToJson(pieces[i]).value)
  {
    var body := Join(",", pieces);
    var s := "(" + body + ")" + tail;
    var ld := LabelDistance(StripWs(tail));
    ParseNodeRoundTrip(pieces, tail);
    ParseNodeSemicolons(pieces, tail, body, s);
    assert s[0] == '(';
    JoinLengths(pieces);
    NodeOf(s, ld.0, ld.1, pieces);
    ChildrenFacts(pieces, |s|);
  }

  /** A ';'-free string with a '(' whose items are all shorter than it is a node of the items' trees. */
  lemma NodeOf(s: string, name: string, distance: string, data: seq<string>)
    requires ';' !in s && '(' in s && ParseNode(s) == (name, distance, data)
    requires forall i :: 0 <= i < |data| ==> |data[i]| < |s|
    ensures NewickToJson(s) ==
      if Children(data, |s|).Success? then Success(Node(name, distance, Children(data, |s|).value))
      else Failure(Children(data, |s|).error)
  {
  }

  lemma ParseNodeSemicolons(pieces: seq<string>, tail: string, body: string, s: string)
    requires forall i :: 0 <= i < |pieces| ==> ';' !in pieces[i]
    requires ';' !in tail && body == Join(",", pieces) && s == "(" + body + ")" + tail
    ensures ';' !in s
  {
    JoinNoChar(pieces, ';');
  }

  lemma {:induction false} JoinNoChar(pieces: seq<string>, c: char)
    requires c != ',' && forall i :: 0 <= i < |pieces| ==> c !in pieces[i]
    ensures c !in Join(",", pieces)
    decreases |pieces|
  {
    if |pieces| > 1 {
      JoinNoChar(pieces[1..], c);
    }
  }

  lemma {:induction false} JoinLengths(pieces: seq<string>)
    ensures forall i :: 0 <= i < |pieces| ==> |pieces[i]| <= |Join(",", pieces)|
    decreases |pieces|
  {
    if |pieces| > 1 {
      JoinLengths(pieces[1..]);
      assert forall i :: 1 <= i < |pieces| ==> pieces[i] == pieces[1..][i - 1];
    }
  }
}
