/**
 * Assertion chains: the "pre ..., inv ..., post ..." lists that precede a
 * func body or a loop body. A chain is accepted exactly when it holds no
 * plain `assert` and its keywords run pre* inv* post*.
 */
module Chains {
  import opened Tokens
  import opened Ast
  import opened Errors
  import G = Grammar
  import Lists

  /** The stage of a chain element: pre 0, inv 1, post (or anything else) 2. */
  function Stage(n: Node): nat {
    var k := AssertKeyword(n);
    if k == KeyPre then 0 else if k == KeyInv then 1 else 2
  }

  /** No element is a plain assert, and stages never go down left to right. */
  predicate Ordered(asserts: seq<Node>) {
    && (forall i :: 0 <= i < |asserts| ==> AssertKeyword(asserts[i]) != KeyAssert)
    && (forall i, j :: 0 <= i < j < |asserts| ==> Stage(asserts[i]) <= Stage(asserts[j]))
  }

  /** The lowest stage still allowed, given the stages already seen. */
  function Floor(seenInv: bool, seenPost: bool): nat {
    if seenPost then 2 else if seenInv then 1 else 0
  }

  /** The scan with flags finds no fault exactly when the rest of the chain
      is ordered and stays at or above the stages already seen. */
  lemma {:induction false} ChainFaultNone(asserts: seq<Node>, seenInv: bool, seenPost: bool)
    ensures G.ChainFault(asserts, seenInv, seenPost) == None <==>
            Ordered(asserts) && forall i :: 0 <= i < |asserts| ==> Floor(seenInv, seenPost) <= Stage(asserts[i])
    decreases |asserts|
  {
    if |asserts| > 0 {
      var k := AssertKeyword(asserts[0]);
      var rest := asserts[1..];
      if k == KeyAssert {
      } else if Stage(asserts[0]) < Floor(seenInv, seenPost) {
        assert G.ChainFault(asserts, seenInv, seenPost).Some?;
      } else {
        var seenInv', seenPost' := seenInv || k == KeyInv, seenPost || Stage(asserts[0]) == 2;
        assert Floor(seenInv', seenPost') == Stage(asserts[0]);
        assert G.ChainFault(asserts, seenInv, seenPost) == G.ChainFault(rest, seenInv', seenPost');
        ChainFaultNone(rest, seenInv', seenPost');
        assert forall i :: 1 <= i < |asserts| ==> asserts[i] == rest[i - 1];
        if Ordered(asserts) && forall i :: 0 <= i < |asserts| ==> Floor(seenInv, seenPost) <= Stage(asserts[i]) {
          assert Ordered(rest);
        }
      }
    }
  }

  /** The scan only ever reports one of the two chain faults. */
  lemma {:induction false} ChainFaultKinds(asserts: seq<Node>, seenInv: bool, seenPost: bool)
    ensures G.ChainFault(asserts, seenInv, seenPost) in {None, Some(AssertInChain), Some(ChainOutOfOrder)}
    decreases |asserts|
  {
    if |asserts| > 0 {
      var k := AssertKeyword(asserts[0]);
      ChainFaultKinds(asserts[1..], seenInv || k == KeyInv, seenPost || (k != KeyPre && k != KeyInv));
    }
  }

  /** assertsSorted accepts a chain exactly when it is ordered. */
  lemma AssertsSortedIffOrdered(last: nat, src: seq<Token>, asserts: seq<Node>)
    ensures G.AssertsSorted(last, src, asserts) == None <==> Ordered(asserts)
  {
    ChainFaultNone(asserts, false, false);
  }

  /** A later element at a lower stage (a pre after an inv or post, an inv
      after a post) is rejected as out of order, unless a plain assert
      is reported first. */
  lemma LaterLowerStageRejected(last: nat, src: seq<Token>, asserts: seq<Node>, i: nat, j: nat)
    requires i < j < |asserts|
    requires Stage(asserts[i]) > Stage(asserts[j])
    ensures G.AssertsSorted(last, src, asserts) in {Some(SyntaxError(ChainOutOfOrder, G.LineAt(last, src))), Some(SyntaxError(AssertInChain, G.LineAt(last, src)))}
  {
    ChainFaultNone(asserts, false, false);
    ChainFaultKinds(asserts, false, false);
  }

  /** A chain holding a plain assert anywhere is rejected. */
  lemma PlainAssertRejected(last: nat, src: seq<Token>, asserts: seq<Node>, i: nat)
    requires i < |asserts| && AssertKeyword(asserts[i]) == KeyAssert
    ensures G.AssertsSorted(last, src, asserts).Some?
  {
    ChainFaultNone(asserts, false, false);
  }

  /** The assertions before a block are assertion nodes in pre* inv* post*
      order with no plain assert; an empty chain is also what a missing
      chain yields. */
  lemma ParseAssertsOrdered(last: nat, src: seq<Token>)
    ensures var r := G.ParseAsserts(last, src);
            r.Ok? ==> Ordered(r.value.0) && Lists.AllShaped(G.AssertElem, r.value.0)
  {
    if G.Peek(src).key == KeyComma {
      Lists.ParseListShape(KeyOpenCurly, G.AssertElem, last, src[1..]);
      var a := G.ParseList(KeyOpenCurly, G.AssertElem, last, src[1..]);
      if a.Ok? {
        AssertsSortedIffOrdered(last, a.value.1, a.value.0);
      }
    }
  }
}
