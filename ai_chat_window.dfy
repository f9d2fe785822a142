/** The floating shopping-assistant chat (components/AIChatWindow.tsx): a
    message log that only ever grows, starting with a greeting, and a send
    handler that posts the trimmed input and appends the assistant's answer
    with its product recommendations. */
module AIChatWindow {
  import opened Common
  import opened Types

  /** The characters `String.prototype.trim` removes: the ECMAScript
      WhiteSpace and LineTerminator sets. */
  predicate IsJsSpace(c: char) {
    var n := c as int;
    || (0x09 <= n <= 0x0D)
    || n == 0x20 || n == 0xA0 || n == 0x1680
    || (0x2000 <= n <= 0x200A)
    || n == 0x2028 || n == 0x2029 || n == 0x202F || n == 0x205F
    || n == 0x3000 || n == 0xFEFF
  }

  function TrimStart(s: string): (r: string)
    ensures |r| <= |s|
    ensures r != [] ==> !IsJsSpace(r[0])
  {
    if s != [] && IsJsSpace(s[0]) then TrimStart(s[1..]) else s
  }

  function TrimEnd(s: string): (r: string)
    ensures |r| <= |s|
    ensures r != [] ==> !IsJsSpace(r[|r| - 1])
  {
    if s != [] && IsJsSpace(s[|s| - 1]) then TrimEnd(s[..|s| - 1]) else s
  }

  /** `TrimStart` keeps a suffix and everything it cuts is whitespace. */
  lemma {:induction false} TrimStartCutsSpaces(s: string)
    ensures TrimStart(s) == s[|s| - |TrimStart(s)|..]
    ensures forall i :: 0 <= i < |s| - |TrimStart(s)| ==> IsJsSpace(s[i])
    decreases |s|
  {
    if s != [] && IsJsSpace(s[0]) {
      TrimStartCutsSpaces(s[1..]);
      forall i | 1 <= i < |s| - |TrimStart(s)|
        ensures IsJsSpace(s[i])
      {
        assert s[i] == s[1..][i - 1];
      }
    }
  }

  /** `TrimEnd` keeps a prefix and everything it cuts is whitespace. */
  lemma {:induction false} TrimEndCutsSpaces(s: string)
    ensures TrimEnd(s) == s[..|TrimEnd(s)|]
    ensures forall i :: |TrimEnd(s)| <= i < |s| ==> IsJsSpace(s[i])
    decreases |s|
  {
    if s != [] && IsJsSpace(s[|s| - 1]) {
      TrimEndCutsSpaces(s[..|s| - 1]);
      forall i | |TrimEnd(s)| <= i < |s| - 1
        ensures IsJsSpace(s[i])
      {
        assert s[i] == s[..|s| - 1][i];
      }
    }
  }

  /** `s.trim()` */
  function Trim(s: string): string {
    TrimEnd(TrimStart(s))
  }

  /** `s[i..j]` is what remains after cutting only whitespace from both ends. */
  predicate CutAtSpaces(s: string, i: int, j: int) {
    && 0 <= i <= j <= |s|
    && (forall k :: 0 <= k < i ==> IsJsSpace(s[k]))
    && (forall k :: j <= k < |s| ==> IsJsSpace(s[k]))
  }

  /** The trimmed text neither starts nor ends with whitespace. */
  lemma TrimEndsNotSpace(s: string)
    ensures Trim(s) != [] ==> !IsJsSpace(Trim(s)[0]) && !IsJsSpace(Trim(s)[|Trim(s)| - 1])
  {
    var t := TrimStart(s);
    TrimEndCutsSpaces(t);
    if Trim(s) != [] {
      assert Trim(s)[0] == t[0];
    }
  }

  /** The trimmed text is a contiguous part of the input, cut only at
      whitespace. */
  lemma TrimIsSlice(s: string)
    ensures exists i, j :: CutAtSpaces(s, i, j) && Trim(s) == s[i..j]
  {
    var t := TrimStart(s);
    var r := TrimEnd(t);
    var i := |s| - |t|;
    var j := i + |r|;
    TrimStartCutsSpaces(s);
    TrimEndCutsSpaces(t);
    assert t == s[i..];
    assert r == t[..|r|];
    assert Trim(s) == s[i..j];
    forall k | j <= k < |s|
      ensures IsJsSpace(s[k])
    {
      assert s[k] == t[k - i];
    }
    assert CutAtSpaces(s, i, j);
  }

  /** The input counts as empty exactly when it is all whitespace. */
  lemma TrimEmptyIffAllSpace(s: string)
    ensures Trim(s) == [] <==> forall k :: 0 <= k < |s| ==> IsJsSpace(s[k])
  {
    var t := TrimStart(s);
    TrimStartCutsSpaces(s);
    TrimEndCutsSpaces(t);
  }

  /** A word padded with one space on each side trims back to the word. */
  lemma TrimPadded(w: string)
    requires w != [] && !IsJsSpace(w[0]) && !IsJsSpace(w[|w| - 1])
    ensures Trim([' '] + w + [' ']) == w
  {
    var padded := [' '] + w + [' '];
    assert IsJsSpace(' ');
    assert padded[1..] == w + [' '];
    assert TrimStart(padded) == TrimStart(w + [' ']);
    assert (w + [' '])[0] == w[0];
    assert TrimStart(w + [' ']) == w + [' '];
    assert (w + [' '])[..|w|] == w;
    assert TrimEnd(w + [' ']) == TrimEnd(w);
  }

  /** Trimming twice changes nothing more. */
  lemma TrimIdempotent(s: string)
    ensures Trim(Trim(s)) == Trim(s)
  {
    var t := Trim(s);
    TrimEndsNotSpace(s);
    if t != [] {
      assert TrimStart(t) == t;
      assert TrimEnd(t) == t;
    }
  }

  datatype Role = UserRole | AssistantRole

  datatype ChatMessage = ChatMessage(role: Role, content: string, recommendations: Option<seq<Post>>)

  /** `POST /api/v1/ai/chat/` with `{ query }`. */
  datatype ChatRequest = ChatRequest(query: string, authorization: string)

  /** The reply `{ answer, recommendations }`. */
  datatype ChatReply = ChatReply(answer: string, recommendations: Option<seq<Post>>)

  const Greeting: ChatMessage := ChatMessage(AssistantRole,
    "👋 你好！我是你的 AI 购物助手。想买点什么？比如“推荐一款降噪耳机”或“适合送女友的礼物”。", None)
  const LoginHint: ChatMessage := ChatMessage(AssistantRole, "请先登录，以便我为您提供个性化服务。", None)
  const Apology: ChatMessage := ChatMessage(AssistantRole, "抱歉，我的大脑刚才短路了，请稍后再试。", None)

  /** The recommendation cards of a message show when it has a non-empty list. */
  function ShowsRecommendations(m: ChatMessage): (shown: bool)
    ensures shown <==> m.recommendations.Some? && m.recommendations.value != []
  {
    m.recommendations.Some? && |m.recommendations.value| > 0
  }

  /** A recommendation card: the title falls back to the post's title, the
      price to "暂无报价"; the image is used as stored. */
  datatype MiniCard = MiniCard(postId: int, title: string, price: string, image: Option<string>)

  function CardOf(p: Post): (c: MiniCard)
    requires p.product.Some?
    ensures c.postId == p.id
    ensures Truthy(p.product.value.productTitle) ==> c.title == p.product.value.productTitle.value
    ensures !Truthy(p.product.value.productTitle) ==> c.title == p.title
    ensures Truthy(p.product.value.productPrice) ==> c.price == p.product.value.productPrice.value
    ensures !Truthy(p.product.value.productPrice) ==> c.price == "暂无报价"
    ensures c.image.Some? <==> Truthy(p.product.value.productImageUrl)
    ensures c.image.Some? ==> c.image == p.product.value.productImageUrl
  {
    var pr := p.product.value;
    MiniCard(p.id,
      if Truthy(pr.productTitle) then pr.productTitle.value else p.title,
      if Truthy(pr.productPrice) then pr.productPrice.value else "暂无报价",
      if Truthy(pr.productImageUrl) then pr.productImageUrl else None)
  }

  class AIChatWindow {
    var isOpen: bool
    var messages: seq<ChatMessage>
    var input: string
    var isLoading: bool

    /** The log always opens with the greeting. */
    predicate Valid()
      reads this
    {
      |messages| >= 1 && messages[0] == Greeting
    }

    constructor ()
      ensures Valid() && messages == [Greeting] && !isOpen && input == "" && !isLoading
    {
      isOpen := false;
      messages := [Greeting];
      input := "";
      isLoading := false;
    }

    /** The floating button. */
    method ToggleOpen()
      modifies this
      ensures isOpen == !old(isOpen)
      ensures messages == old(messages) && input == old(input) && isLoading == old(isLoading)
    {
      isOpen := !isOpen;
    }

    method EditInput(text: string)
      modifies this
      ensures input == text && messages == old(messages) && isLoading == old(isLoading) && isOpen == old(isOpen)
    {
      input := text;
    }

    /** `handleSend` up to the await. Blank input or a pending answer: nothing.
        No token: the login hint is appended and the input kept. Otherwise
        the trimmed input is appended as the user's message and sent. */
    method BeginSend(auth: Auth) returns (request: Option<ChatRequest>)
      requires Valid()
      modifies this
      ensures Valid() && isOpen == old(isOpen)
      ensures Trim(old(input)) == [] || old(isLoading) ==>
        request == None && messages == old(messages) && input == old(input) && isLoading == old(isLoading)
      ensures Trim(old(input)) != [] && !old(isLoading) && !HasToken(auth) ==>
        request == None && messages == old(messages) + [LoginHint] && input == old(input) && !isLoading
      ensures Trim(old(input)) != [] && !old(isLoading) && HasToken(auth) ==>
        && messages == old(messages) + [ChatMessage(UserRole, Trim(old(input)), None)]
        && input == "" && isLoading
        && request == Some(ChatRequest(Trim(old(input)), AuthHeader(auth)))
    {
      var trimmed := Trim(input);
      if |trimmed| == 0 || isLoading {
        return None;
      }
      if !HasToken(auth) {
        messages := messages + [LoginHint];
        return None;
      }
      messages := messages + [ChatMessage(UserRole, trimmed, None)];
      input := "";
      isLoading := true;
      request := Some(ChatRequest(trimmed, AuthHeader(auth)));
    }

    /** `handleSend` after the await: the answer (or the apology) is
        appended after whatever the log holds now. */
    method CompleteSend(outcome: Outcome<ChatReply, ()>) returns (effects: seq<Effect>)
      requires Valid()
      modifies this
      ensures Valid() && !isLoading && input == old(input) && isOpen == old(isOpen)
      ensures outcome.Success? ==>
        messages == old(messages) + [ChatMessage(AssistantRole, outcome.payload.answer, outcome.payload.recommendations)]
        && effects == []
      ensures outcome.Failure? ==> messages == old(messages) + [Apology] && effects == [LogError("")]
    {
      if outcome.Success? {
        messages := messages + [ChatMessage(AssistantRole, outcome.payload.answer, outcome.payload.recommendations)];
        effects := [];
      } else {
        effects := [LogError("")];
        messages := messages + [Apology];
      }
      isLoading := false;
    }

    /** The send button is disabled for blank input or while waiting. */
    function SendDisabled(): (d: bool)
      reads this
      ensures d <==> Trim(input) == [] || isLoading
    {
      |Trim(input)| == 0 || isLoading
    }
  }

  /** Whitespace-only input never reaches the log, and a full exchange adds
      exactly the question and the answer. */
  method ExchangeScenario(auth: Auth, reply: ChatReply, blank: string, word: string)
    requires HasToken(auth)
    requires forall k :: 0 <= k < |blank| ==> IsJsSpace(blank[k])
    requires word != [] && !IsJsSpace(word[0]) && !IsJsSpace(word[|word| - 1])
  {
    var w := new AIChatWindow();
    TrimEmptyIffAllSpace(blank);
    w.EditInput(blank);
    var req := w.BeginSend(auth);
    assert req == None && w.messages == [Greeting];
    var typed := [' '] + word + [' '];
    TrimPadded(word);
    w.EditInput(typed);
    req := w.BeginSend(auth);
    assert req.value.query == word;
    assert w.messages == [Greeting, ChatMessage(UserRole, word, None)];
    var eff := w.CompleteSend(Success(reply));
    assert w.messages == [Greeting, ChatMessage(UserRole, word, None), ChatMessage(AssistantRole, reply.answer, reply.recommendations)];
  }
}
