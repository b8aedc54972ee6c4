/**
 * Call-chain keys. A call chain is the string `<line>,<module>[:<f1>[->f2...]]`;
 * one that ends in ':' names a call site at module level (outside any function).
 */
module CallChain {

  /** `Stats.is_toplevel`: the chain ends in ':'. */
  predicate IsTopLevel(chain: string)
  {
    |chain| > 0 && chain[|chain| - 1] == ':'
  }

  lemma IsTopLevelIffColonSuffix(chain: string)
    ensures IsTopLevel(chain) <==> exists prefix: string :: chain == prefix + ":"
  {
    if IsTopLevel(chain) {
      assert chain == chain[..|chain| - 1] + ":";
    }
  }

  /** The chain a treemap root node is keyed by: ':' followed by its name. */
  function RootChain(name: string): (r: string)
    ensures |r| == |name| + 1 && r[0] == ':' && r[1..] == name
  {
    ":" + name
  }

  /** The chain of a child node: the parent's chain with "->name" appended. */
  function ChildChain(parent: string, name: string): (r: string)
    ensures |r| == |parent| + 2 + |name|
    ensures r[..|parent|] == parent && r[|parent|..|parent| + 2] == "->"
    ensures r[|parent| + 2..] == name
  {
    parent + "->" + name
  }

  /** A chain extended by a name that does not end in ':' is never a top-level chain. */
  lemma ChildChainNotTopLevel(parent: string, name: string)
    requires !IsTopLevel(name)
    ensures !IsTopLevel(ChildChain(parent, name))
  {
    var r := ChildChain(parent, name);
    if name == "" {
      assert r[|r| - 1] == '>';
    } else {
      assert r[|r| - 1] == name[|name| - 1];
    }
  }
}
