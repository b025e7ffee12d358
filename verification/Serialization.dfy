/** leecode/verifypreorder.cpp: does a comma-separated string list the nodes of some binary
    tree in preorder, with "#" for each missing child? */
module Serialization {

  type Token = string

  // ---------- What is being recognised ----------

  datatype Tree = Null | Node(value: Token, left: Tree, right: Tree)

  predicate CommaFree(t: Token) {
    forall i :: 0 <= i < |t| ==> t[i] != ','
  }

  /** Labels are written down as they are, so they hold no comma and are not "#". */
  predicate Writable(t: Tree) {
    match t
    case Null => true
    case Node(v, l, r) => v != "#" && CommaFree(v) && Writable(l) && Writable(r)
  }

  function Preorder(t: Tree): seq<Token> {
    match t
    case Null => ["#"]
    case Node(v, l, r) => [v] + Preorder(l) + Preorder(r)
  }

  /** The tokens with a comma between each two. */
  function Join(ts: seq<Token>): string {
    if ts == [] then "" else if |ts| == 1 then ts[0] else ts[0] + "," + Join(ts[1..])
  }

  // ---------- The splitting loop ----------

  /** preorder.find(",", from): the first comma, or the length when there is none. */
  function Find(s: string, from: nat): (p: nat)
    requires from <= |s|
    ensures from <= p <= |s|
    ensures forall i :: from <= i < p ==> s[i] != ','
    ensures p < |s| ==> s[p] == ','
    decreases |s| - from
  {
    if from == |s| || s[from] == ',' then from else Find(s, from + 1)
  }

  function SplitFrom(s: string, start: nat): seq<Token>
    requires start <= |s|
    decreases |s| - start
  {
    var sep := Find(s, start);
    if sep == |s| then [s[start..]] else [s[start..sep]] + SplitFrom(s, sep + 1)
  }

  lemma SplitUnfolds(s: string, start: nat)
    requires start <= |s|
    ensures var sep := Find(s, start);
            SplitFrom(s, start) == if sep == |s| then [s[start..]] else [s[start..sep]] + SplitFrom(s, sep + 1)
  {
  }

  method Split(preorder: string) returns (vec: seq<Token>)
    ensures vec == SplitFrom(preorder, 0)
  {
    hide Find, SplitFrom;
    vec := [];
    var start := 0;
    var sep := Find(preorder, start);
    while sep != |preorder|
      invariant start <= sep <= |preorder| && sep == Find(preorder, start)
      invariant vec + SplitFrom(preorder, start) == SplitFrom(preorder, 0)
      decreases |preorder| - start
    {
      SplitUnfolds(preorder, start);
      vec := vec + [preorder[start..sep]];
      start := sep + 1;
      sep := Find(preorder, start);
    }
    SplitUnfolds(preorder, start);
    vec := vec + [preorder[start..]];
  }

  // ---------- The stack loop ----------

  /** What is left to decide with `depth` nodes on the stack and these tokens to come. */
  predicate Accepts(ts: seq<Token>, depth: nat)
    decreases |ts|
  {
    if ts == [] then depth == 0
    else if ts[0] != "#" then Accepts(ts[1..], depth + 1)
    else if |ts| > 1 then depth > 0 && Accepts(ts[1..], depth - 1)
    else Accepts([], depth)
  }

  method CheckStack(vec: seq<Token>) returns (valid: bool)
    ensures valid == Accepts(vec, 0)
  {
    var parent: seq<Token> := [];
    for i := 0 to |vec|
      invariant Accepts(vec[i..], |parent|) == Accepts(vec, 0)
    {
      var cur := vec[i];
      assert vec[i..][0] == cur && vec[i..][1..] == vec[i + 1..];
      if cur != "#" {
        parent := parent + [cur];
      } else if i != |vec| - 1 && |parent| > 0 {
        parent := parent[..|parent| - 1];
      } else if i != |vec| - 1 {
        return false;
      }
    }
    return |parent| == 0;
  }

  // ---------- The stack loop recognises preorders ----------

  function Preorders(f: seq<Tree>): seq<Token> {
    if f == [] then [] else Preorder(f[0]) + Preorders(f[1..])
  }

  ghost predicate AllWritable(f: seq<Tree>) {
    forall i :: 0 <= i < |f| ==> Writable(f[i])
  }

  ghost predicate AllCommaFree(ts: seq<Token>) {
    forall i :: 0 <= i < |ts| ==> CommaFree(ts[i])
  }

  lemma PreordersCons(t: Tree, f: seq<Tree>)
    ensures Preorders([t] + f) == Preorder(t) + Preorders(f)
  {
    assert ([t] + f)[1..] == f;
  }

  lemma PreordersNode(v: Token, l: Tree, r: Tree, f: seq<Tree>)
    ensures Preorders([Node(v, l, r)] + f) == [v] + Preorders([l, r] + f)
  {
    hide Preorders;
    PreordersCons(Node(v, l, r), f);
    PreordersCons(r, f);
    PreordersCons(l, [r] + f);
    assert [l, r] + f == [l] + ([r] + f);
  }

  /** Tokens accepted over a stack of d nodes are the preorders of d + 1 trees, one after another. */
  lemma {:induction false} AcceptedIsForest(ts: seq<Token>, d: nat) returns (f: seq<Tree>)
    requires ts != [] && Accepts(ts, d) && AllCommaFree(ts)
    ensures |f| == d + 1 && AllWritable(f) && Preorders(f) == ts
    decreases |ts|
  {
    if |ts| == 1 {
      f := [Null];
      PreordersCons(Null, []);
      assert [Null] + [] == f;
    } else if ts[0] == "#" {
      var g := AcceptedIsForest(ts[1..], d - 1);
      f := [Null] + g;
      PreordersCons(Null, g);
    } else {
      var g := AcceptedIsForest(ts[1..], d + 1);
      f := [Node(ts[0], g[0], g[1])] + g[2..];
      PreordersNode(ts[0], g[0], g[1], g[2..]);
      assert [g[0], g[1]] + g[2..] == g;
      assert CommaFree(ts[0]);
    }
  }

  function Size(t: Tree): nat {
    match t
    case Null => 1
    case Node(_, l, r) => 1 + Size(l) + Size(r)
  }

  function Sizes(f: seq<Tree>): nat {
    if f == [] then 0 else Size(f[0]) + Sizes(f[1..])
  }

  lemma SizesNode(v: Token, l: Tree, r: Tree, f: seq<Tree>)
    ensures Sizes([l, r] + f) < Sizes([Node(v, l, r)] + f)
  {
    assert ([l, r] + f)[1..] == [r] + f && ([r] + f)[1..] == f;
    assert ([Node(v, l, r)] + f)[1..] == f;
  }

  lemma {:induction false} ForestIsAccepted(f: seq<Tree>, d: nat)
    requires |f| == d + 1 && AllWritable(f)
    ensures Preorders(f) != [] && Accepts(Preorders(f), d)
    decreases Sizes(f)
  {
    var t, g := f[0], f[1..];
    assert f == [t] + g;
    match t
    case Null =>
      PreordersCons(Null, g);
      assert Preorders(f)[1..] == Preorders(g);
      if d > 0 {
        assert Sizes(f) == 1 + Sizes(g);
        ForestIsAccepted(g, d - 1);
      }
    case Node(v, l, r) =>
      PreordersNode(v, l, r, g);
      SizesNode(v, l, r, g);
      var h := [l, r] + g;
      assert AllWritable(h) by {
        assert forall i :: 2 <= i < |h| ==> h[i] == f[i - 1];
      }
      ForestIsAccepted(h, d + 1);
      assert Preorders(f)[1..] == Preorders(h) && Preorders(f)[0] == v;
  }

  lemma {:induction false} PreorderCommaFree(t: Tree)
    requires Writable(t)
    ensures AllCommaFree(Preorder(t))
  {
    match t
    case Null =>
    case Node(v, l, r) =>
      PreorderCommaFree(l);
      PreorderCommaFree(r);
  }

  // ---------- The splitting loop undoes Join ----------

  lemma JoinOne(t: Token)
    ensures Join([t]) == t
  {
  }

  lemma JoinCons(t: Token, ts: seq<Token>)
    requires ts != []
    ensures Join([t] + ts) == t + "," + Join(ts)
  {
    assert ([t] + ts)[1..] == ts;
  }

  lemma {:induction false} SplitThenJoin(s: string, start: nat)
    requires start <= |s|
    ensures SplitFrom(s, start) != [] && AllCommaFree(SplitFrom(s, start))
    ensures Join(SplitFrom(s, start)) == s[start..]
    decreases |s| - start
  {
    hide Find, SplitFrom, Join;
    var sep := Find(s, start);
    SplitUnfolds(s, start);
    JoinOne(s[start..]);
    if sep < |s| {
      SplitThenJoin(s, sep + 1);
      JoinCons(s[start..sep], SplitFrom(s, sep + 1));
      assert s[start..] == s[start..sep] + "," + s[sep + 1..];
    }
  }

  lemma {:induction false} SplitShift(p: string, s: string, start: nat)
    requires start <= |s|
    ensures SplitFrom(p + s, |p| + start) == SplitFrom(s, start)
    decreases |s| - start
  {
    hide Find;
    FindShift(p, s, start);
    var sep := Find(s, start);
    assert (p + s)[|p| + start..] == s[start..];
    if sep < |s| {
      assert (p + s)[|p| + start..|p| + sep] == s[start..sep];
      SplitShift(p, s, sep + 1);
    }
  }

  lemma {:induction false} FindShift(p: string, s: string, from: nat)
    requires from <= |s|
    ensures Find(p + s, |p| + from) == |p| + Find(s, from)
    decreases |s| - from
  {
    if from < |s| && s[from] != ',' { FindShift(p, s, from + 1); }
  }

  lemma {:induction false} JoinThenSplit(ts: seq<Token>)
    requires ts != [] && AllCommaFree(ts)
    ensures SplitFrom(Join(ts), 0) == ts
    decreases |ts|
  {
    var s := Join(ts);
    if |ts| == 1 {
      assert CommaFree(ts[0]) && Find(s, 0) == |s|;
    } else {
      var head, rest := ts[0] + ",", Join(ts[1..]);
      assert s == head + rest;
      JoinThenSplit(ts[1..]);
      SplitShift(head, rest, 0);
      FirstComma(ts[0], rest);
      assert s[0..|ts[0]|] == ts[0];
    }
  }

  lemma FirstComma(t: Token, rest: string)
    requires CommaFree(t)
    ensures Find(t + "," + rest, 0) == |t|
  {
    var s := t + "," + rest;
    assert s[|t|] == ',' && forall i :: 0 <= i < |t| ==> s[i] == t[i];
  }

  // ---------- Main result ----------

  /** The string is some tree written down. */
  ghost predicate SerializesATree(s: string) {
    exists t :: Writable(t) && Join(Preorder(t)) == s
  }

  lemma AcceptsIffTree(s: string)
    ensures Accepts(SplitFrom(s, 0), 0) <==> SerializesATree(s)
  {
    hide *;
    if Accepts(SplitFrom(s, 0), 0) { AcceptedIsTree(s); }
    if SerializesATree(s) { TreeIsAccepted(s); }
  }

  lemma AcceptedIsTree(s: string)
    requires Accepts(SplitFrom(s, 0), 0)
    ensures SerializesATree(s)
  {
    hide Accepts, SplitFrom, Preorders, Join;
    SplitThenJoin(s, 0);
    assert s[0..] == s;
    var f := AcceptedIsForest(SplitFrom(s, 0), 0);
    assert f == [f[0]] + [];
    PreordersCons(f[0], []);
    PreordersNone();
    assert Preorder(f[0]) + [] == Preorder(f[0]);
  }

  lemma TreeIsAccepted(s: string)
    requires SerializesATree(s)
    ensures Accepts(SplitFrom(s, 0), 0)
  {
    hide Accepts, SplitFrom, Preorders, Join, Preorder;
    var t :| Writable(t) && Join(Preorder(t)) == s;
    ForestIsAccepted([t], 0);
    PreordersCons(t, []);
    PreordersNone();
    assert [t] + [] == [t] && Preorder(t) + [] == Preorder(t);
    PreorderCommaFree(t);
    JoinThenSplit(Preorder(t));
  }

  lemma PreordersNone()
    ensures Preorders([]) == []
  {
  }

  /** Both loops together answer exactly whether the string is a serialized tree. */
  method IsValidSerialization(preorder: string) returns (valid: bool)
    ensures valid <==> SerializesATree(preorder)
  {
    var vec := Split(preorder);
    valid := CheckStack(vec);
    AcceptsIffTree(preorder);
  }
}
