/** The recursive rendering of a comment and its replies (components/Comment.tsx).
    A comment box shows its author, date and content; when the comment has
    replies, an indented replies block follows in which every reply is
    rendered by the same component. The rendering is modelled as the
    pre-order list of comment boxes, each with its nesting depth. */
module CommentTree {
  import opened Types

  /** One rendered comment box: header, content, the number of indented
      replies blocks around it, and whether a replies block follows it. */
  datatype Line = Line(id: int, author: string, createdAt: string, content: string, depth: nat, opensReplies: bool)

  function Render(c: Comment, depth: nat): seq<Line>
  {
    [Line(c.id, c.author.username, c.createdAt, c.content, depth, |c.replies| > 0)]
      + RenderAll(c.replies, depth + 1)
  }

  /** `replies.map(reply => <Comment comment={reply} />)` at one depth. */
  function RenderAll(cs: seq<Comment>, depth: nat): seq<Line>
  {
    if cs == [] then [] else Render(cs[0], depth) + RenderAll(cs[1..], depth)
  }

  /** Number of comments in a tree, the comment itself included. */
  function Size(c: Comment): nat
  {
    1 + SizeAll(c.replies)
  }

  function SizeAll(cs: seq<Comment>): nat
  {
    if cs == [] then 0 else Size(cs[0]) + SizeAll(cs[1..])
  }

  /** The ids of all comments of a tree, with multiplicity. */
  function Ids(c: Comment): multiset<int>
  {
    multiset{c.id} + IdsAll(c.replies)
  }

  function IdsAll(cs: seq<Comment>): multiset<int>
  {
    if cs == [] then multiset{} else Ids(cs[0]) + IdsAll(cs[1..])
  }

  /** The ids of rendered boxes, with multiplicity. */
  function LineIds(ls: seq<Line>): multiset<int>
  {
    if ls == [] then multiset{} else multiset{ls[0].id} + LineIds(ls[1..])
  }

  lemma {:induction false} LineIdsAppend(a: seq<Line>, b: seq<Line>)
    ensures LineIds(a + b) == LineIds(a) + LineIds(b)
  {
    if a != [] {
      assert (a + b)[0] == a[0];
      assert (a + b)[1..] == a[1..] + b;
      LineIdsAppend(a[1..], b);
      assert LineIds(a + b) == multiset{a[0].id} + LineIds(a[1..] + b);
    } else {
      assert a + b == b;
    }
  }

  /** Every comment of the tree is rendered exactly once: the number of boxes
      is the number of comments. */
  lemma {:induction false} RenderSize(c: Comment, depth: nat)
    ensures |Render(c, depth)| == Size(c)
  {
    RenderAllSize(c.replies, depth + 1);
  }

  lemma {:induction false} RenderAllSize(cs: seq<Comment>, depth: nat)
    ensures |RenderAll(cs, depth)| == SizeAll(cs)
  {
    if cs != [] {
      RenderSize(cs[0], depth);
      RenderAllSize(cs[1..], depth);
    }
  }

  /** ... and the rendered ids are exactly the tree's ids. */
  lemma {:induction false} RenderIds(c: Comment, depth: nat)
    ensures LineIds(Render(c, depth)) == Ids(c)
  {
    var head := [Line(c.id, c.author.username, c.createdAt, c.content, depth, |c.replies| > 0)];
    LineIdsAppend(head, RenderAll(c.replies, depth + 1));
    assert LineIds(head) == multiset{c.id} by {
      assert head[1..] == [];
    }
    RenderAllIds(c.replies, depth + 1);
  }

  lemma {:induction false} RenderAllIds(cs: seq<Comment>, depth: nat)
    ensures LineIds(RenderAll(cs, depth)) == IdsAll(cs)
  {
    if cs != [] {
      LineIdsAppend(Render(cs[0], depth), RenderAll(cs[1..], depth));
      RenderIds(cs[0], depth);
      RenderAllIds(cs[1..], depth);
    }
  }

  /** A comment's own box comes first, at the given depth; every box after it
      belongs to a reply and is nested at least one level deeper. */
  lemma {:induction false} RenderDepths(c: Comment, depth: nat)
    ensures Render(c, depth)[0].id == c.id && Render(c, depth)[0].depth == depth
    ensures forall i :: 1 <= i < |Render(c, depth)| ==> Render(c, depth)[i].depth > depth
  {
    RenderAllDepths(c.replies, depth + 1);
  }

  lemma {:induction false} RenderAllDepths(cs: seq<Comment>, depth: nat)
    ensures forall i :: 0 <= i < |RenderAll(cs, depth)| ==> RenderAll(cs, depth)[i].depth >= depth
  {
    if cs != [] {
      RenderDepths(cs[0], depth);
      RenderAllDepths(cs[1..], depth);
    }
  }

  /** The replies block is produced exactly when there are replies; it then
      starts with the first reply's box, one level deeper. */
  lemma RepliesBlockIffReplies(c: Comment, depth: nat)
    ensures Render(c, depth)[0].opensReplies <==> |c.replies| > 0
    ensures |Render(c, depth)| > 1 <==> |c.replies| > 0
    ensures |c.replies| > 0 ==>
      Render(c, depth)[1].id == c.replies[0].id && Render(c, depth)[1].depth == depth + 1
  {
    RenderSize(c, depth);
    if |c.replies| > 0 {
      RenderSize(c.replies[0], depth + 1);
      assert SizeAll(c.replies) >= 1;
    }
  }

  lemma SizeAllSplit(cs: seq<Comment>, k: nat)
    requires k < |cs|
    ensures SizeAll(cs[..k + 1]) == SizeAll(cs[..k]) + Size(cs[k])
  {
    if k > 0 {
      assert cs[..k + 1][1..] == cs[1..][..k];
      assert cs[..k][1..] == cs[1..][..k - 1];
      SizeAllSplit(cs[1..], k - 1);
    } else {
      assert cs[..1][1..] == [];
    }
  }

  /** A prefix of a list of replies, summed from its first reply. */
  lemma SizeAllPrefixCons(cs: seq<Comment>, k: nat)
    requires 0 < k <= |cs|
    ensures SizeAll(cs[..k]) == Size(cs[0]) + SizeAll(cs[1..][..k - 1])
  {
    assert cs[..k][0] == cs[0];
    assert cs[..k][1..] == cs[1..][..k - 1];
  }

  /** A slice lying wholly in the second part of a concatenation. */
  lemma SliceOfSecond(a: seq<Line>, b: seq<Line>, lo: int, hi: int)
    requires |a| <= lo <= hi <= |a| + |b|
    ensures (a + b)[lo..hi] == b[lo - |a|..hi - |a|]
  {
  }

  /** Reply `k` of a list is rendered, through the same rendering, as one
      contiguous run of boxes placed after the runs of the replies before it. */
  lemma {:induction false} RenderAllAt(cs: seq<Comment>, depth: nat, k: nat)
    requires k < |cs|
    ensures SizeAll(cs[..k]) <= SizeAll(cs[..k + 1]) <= |RenderAll(cs, depth)|
    ensures RenderAll(cs, depth)[SizeAll(cs[..k])..SizeAll(cs[..k + 1])] == Render(cs[k], depth)
    decreases k
  {
    var first := Render(cs[0], depth);
    var rest := RenderAll(cs[1..], depth);
    assert RenderAll(cs, depth) == first + rest;
    RenderSize(cs[0], depth);
    SizeAllPrefixCons(cs, k + 1);
    if k == 0 {
      assert cs[..0] == [];
      assert cs[1..][..0] == [];
      assert (first + rest)[0..|first|] == first;
    } else {
      RenderAllAt(cs[1..], depth, k - 1);
      SizeAllPrefixCons(cs, k);
      SliceOfSecond(first, rest, SizeAll(cs[..k]), SizeAll(cs[..k + 1]));
    }
  }

  /** Pre-order with depth: the boxes of reply `k` follow the comment's own box
      and the boxes of replies 0..k-1, in array order, one level deeper. */
  lemma ReplyRenderedInPlace(c: Comment, depth: nat, k: nat)
    requires k < |c.replies|
    ensures SizeAll(c.replies[..k]) <= SizeAll(c.replies[..k + 1])
    ensures 1 + SizeAll(c.replies[..k + 1]) <= |Render(c, depth)|
    ensures Render(c, depth)[1 + SizeAll(c.replies[..k])..1 + SizeAll(c.replies[..k + 1])]
            == Render(c.replies[k], depth + 1)
  {
    RenderAllAt(c.replies, depth + 1, k);
    var head := [Line(c.id, c.author.username, c.createdAt, c.content, depth, |c.replies| > 0)];
    var rest := RenderAll(c.replies, depth + 1);
    var lo := SizeAll(c.replies[..k]);
    var hi := SizeAll(c.replies[..k + 1]);
    assert Render(c, depth) == head + rest;
    assert (head + rest)[1 + lo..1 + hi] == rest[lo..hi];
  }
}
