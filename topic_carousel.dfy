/** The trending-topics strip (components/TopicCarousel.tsx): up to ten
    topics as cards, each with a banner, icon or rotating gradient
    background, and two buttons that scroll the strip by one card. */
module TopicCarousel {
  import opened Common
  import opened Types

  const MaxTopics: nat := 10

  /** One card's width plus the gap, in pixels. */
  const ScrollAmount: int := 304

  const Gradients: seq<string> := [
    "from-purple-600 to-indigo-700",
    "from-pink-500 to-rose-600",
    "from-blue-500 to-cyan-600",
    "from-amber-500 to-orange-600",
    "from-emerald-500 to-teal-600"
  ]

  /** `getGradient(index)`: the palette repeated. */
  function Gradient(index: nat): (g: string)
    ensures g in Gradients
    ensures g == Gradients[index % |Gradients|]
  {
    Gradients[index % |Gradients|]
  }

  /** The palette has period five, and neighbouring cards never share a
      gradient. */
  lemma GradientCycle(index: nat)
    ensures Gradient(index + |Gradients|) == Gradient(index)
    ensures Gradient(index + 1) != Gradient(index)
  {
    var k := index % 5;
    assert (index + 5) % 5 == k;
    assert (index + 1) % 5 == if k == 4 then 0 else k + 1;
  }

  datatype Direction = Left | Right

  /** `scroll(direction)`: without a mounted container nothing happens;
      otherwise the target is one card to the left or to the right. */
  method Scroll(direction: Direction, scrollLeft: Option<int>) returns (target: Option<int>)
    ensures target.None? <==> scrollLeft.None?
    ensures scrollLeft.Some? && direction == Left ==> target == Some(scrollLeft.value - ScrollAmount)
    ensures scrollLeft.Some? && direction == Right ==> target == Some(scrollLeft.value + ScrollAmount)
  {
    if scrollLeft.None? {
      return None;
    }
    var amount := ScrollAmount;
    var current := scrollLeft.value;
    target := Some(if direction == Left then current - amount else current + amount);
  }

  /** The card background, in priority order. */
  datatype Background = BannerImage(url: string) | BlurredIcon(url: string) | GradientFill(classes: string)

  datatype Card = Card(
    key: int,
    href: string,
    background: Background,
    icon: Option<string>,
    heading: string,
    subscribers: int,
    posts: int)

  function BackgroundOf(t: Topic, index: nat): (b: Background)
    ensures Truthy(t.banner) ==> b == BannerImage(t.banner.value)
    ensures !Truthy(t.banner) && Truthy(t.icon) ==> b == BlurredIcon(t.icon.value)
    ensures !Truthy(t.banner) && !Truthy(t.icon) ==> b == GradientFill(Gradient(index))
  {
    if Truthy(t.banner) then BannerImage(t.banner.value)
    else if Truthy(t.icon) then BlurredIcon(t.icon.value)
    else GradientFill(Gradient(index))
  }

  /** The heading: the description, or an invitation naming the topic. */
  function Heading(t: Topic): (h: string)
    ensures Truthy(t.description) ==> h == t.description.value
    ensures !Truthy(t.description) ==> h == "加入 " + t.name + " 社区"
  {
    if Truthy(t.description) then t.description.value else "加入 " + t.name + " 社区"
  }

  function CardOf(t: Topic, index: nat): Card
  {
    Card(t.id, "/topics/" + t.slug, BackgroundOf(t, index),
      if Truthy(t.icon) then t.icon else None,
      Heading(t), CountOrZero(t.subscribersCount), CountOrZero(t.postsCount))
  }

  /** The strip: nothing for no topics, else one card per topic in order. */
  function View(topics: seq<Topic>): (cards: Option<seq<Card>>)
    ensures cards.None? <==> topics == []
    ensures cards.Some? ==> |cards.value| == |topics|
    ensures cards.Some? ==> forall i :: 0 <= i < |topics| ==> cards.value[i] == CardOf(topics[i], i)
  {
    if topics == [] then None
    else Some(seq(|topics|, i requires 0 <= i < |topics| => CardOf(topics[i], i)))
  }

  class TopicCarousel {
    var topics: seq<Topic>

    /** At most ten topics are ever held. */
    predicate Valid()
      reads this
    {
      |topics| <= MaxTopics
    }

    constructor ()
      ensures Valid() && topics == []
    {
      topics := [];
    }

    /** `fetchTrendingTopics` after its GET: the first ten topics of the
        reply, in the server's order; a failure only logs. */
    method CompleteFetch(outcome: Outcome<Payload<Topic>, ()>) returns (effects: seq<Effect>)
      requires Valid()
      modifies this
      ensures Valid()
      ensures outcome.Success? ==> topics == Take(ArrayOrResults(outcome.payload), MaxTopics) && effects == []
      ensures outcome.Failure? ==> topics == old(topics) && effects == [LogError("")]
    {
      if outcome.Success? {
        topics := Take(ArrayOrResults(outcome.payload), MaxTopics);
        effects := [];
      } else {
        effects := [LogError("")];
      }
    }
  }

  /** Whatever the reply's length, the strip holds its first ten topics (all
      of them when there are fewer), and card `i` shows reply topic `i`. */
  lemma FetchShowsFirstTen(reply: seq<Topic>)
    ensures |reply| >= MaxTopics ==> Take(reply, MaxTopics) == reply[..MaxTopics]
    ensures |reply| < MaxTopics ==> Take(reply, MaxTopics) == reply
    ensures reply != [] ==>
      var cards := View(Take(reply, MaxTopics)).value;
      && |cards| == (if |reply| < MaxTopics then |reply| else MaxTopics)
      && forall i :: 0 <= i < |cards| ==> cards[i] == CardOf(reply[i], i)
  {
    var shown := Take(reply, MaxTopics);
    if |reply| >= MaxTopics {
      assert shown == reply[..MaxTopics];
    } else {
      assert shown == reply;
    }
  }
}
