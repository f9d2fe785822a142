/** The merchant back office (app/merchant/dashboard/page.tsx): after
    re-checking that the merchant is approved it lists the merchant's own
    products and sums their views. */
module MerchantDashboard {
  import opened Common
  import opened Types
  import Url

  /** `GET /api/v1/merchants/me/` */
  datatype MerchantRequest = MerchantRequest(authorization: string)

  /** `GET` of the merchant's internal products. */
  datatype ProductsRequest = ProductsRequest(path: string, authorization: string)

  /** `{ totalSales, totalViews }`; sales are never computed. */
  datatype Stats = Stats(totalSales: int, totalViews: int)

  const ApprovedStatus: string := "approved"

  /** The two fixed parts of the product query, around the author's name. */
  const ProductsQuery: string := "/api/v1/posts/?author__username="
  const InternalFilter: string := "&product__product_type=INTERNAL"

  /** The product query, with the signed-in user's name interpolated (an
      absent user prints `undefined`). */
  function ProductsPath(user: Option<User>): (p: string)
    ensures user.Some? ==> p == ProductsQuery + user.value.username + InternalFilter
    ensures user.None? ==> p == ProductsQuery + "undefined" + InternalFilter
  {
    var name := if user.Some? then Some(user.value.username) else None;
    ProductsQuery + Url.Interpolate(name) + InternalFilter
  }

  /** The sum of the posts' view counts. */
  function TotalViews(posts: seq<Post>): int
  {
    if posts == [] then 0 else TotalViews(posts[..|posts| - 1]) + posts[|posts| - 1].viewCount
  }

  /** `reduce((acc, curr) => acc + curr.view_count, acc)`, a left fold. */
  function FoldViews(acc: int, posts: seq<Post>): int
    decreases |posts|
  {
    if posts == [] then acc else FoldViews(acc + posts[0].viewCount, posts[1..])
  }

  /** Summing from the front. */
  lemma {:induction false} TotalViewsCons(posts: seq<Post>)
    requires posts != []
    ensures TotalViews(posts) == posts[0].viewCount + TotalViews(posts[1..])
    decreases |posts|
  {
    if |posts| > 1 {
      TotalViewsCons(posts[..|posts| - 1]);
      assert posts[..|posts| - 1][1..] == posts[1..][..|posts[1..]| - 1];
    } else {
      assert posts[..0] == [];
    }
  }

  /** The fold starting from `acc` adds the total to it. */
  lemma {:induction false} FoldIsTotal(acc: int, posts: seq<Post>)
    ensures FoldViews(acc, posts) == acc + TotalViews(posts)
    decreases |posts|
  {
    if posts != [] {
      FoldIsTotal(acc + posts[0].viewCount, posts[1..]);
      TotalViewsCons(posts);
    }
  }

  /** Adding a product adds its view count. */
  lemma TotalViewsAppend(posts: seq<Post>, p: Post)
    ensures TotalViews(posts + [p]) == TotalViews(posts) + p.viewCount
  {
    assert (posts + [p])[..|posts|] == posts;
  }

  /** The `reduce` of `fetchData`, as a loop. */
  method SumViews(posts: seq<Post>) returns (views: int)
    ensures views == FoldViews(0, posts)
    ensures views == TotalViews(posts)
  {
    views := 0;
    var i := 0;
    while i < |posts|
      invariant 0 <= i <= |posts|
      invariant views == TotalViews(posts[..i])
    {
      assert posts[..i + 1] == posts[..i] + [posts[i]];
      TotalViewsAppend(posts[..i], posts[i]);
      views := views + posts[i].viewCount;
      i := i + 1;
    }
    assert posts[..i] == posts;
    FoldIsTotal(0, posts);
  }

  /** The price cell: the shop price with a yen sign, else the scraped
      price, else a dash. */
  function PriceText(product: Option<Product>): (s: string)
    ensures product.Some? && Truthy(product.value.price) ==> s == "¥" + product.value.price.value
    ensures product.Some? && !Truthy(product.value.price) && Truthy(product.value.productPrice) ==>
      s == product.value.productPrice.value
    ensures product.None? || (!Truthy(product.value.price) && !Truthy(product.value.productPrice)) ==> s == "-"
  {
    if product.Some? && Truthy(product.value.price) then "¥" + product.value.price.value
    else if product.Some? && Truthy(product.value.productPrice) then product.value.productPrice.value
    else "-"
  }

  /** The stock cell: a stock of 0 is shown as 0, a missing one as a dash. */
  datatype StockCell = StockValue(n: int) | NoStock

  function StockOf(product: Option<Product>): (c: StockCell)
    ensures c.StockValue? <==> product.Some? && product.value.stock.Some?
    ensures c.StockValue? ==> c.n == product.value.stock.value
  {
    if product.Some? && product.value.stock.Some? then StockValue(product.value.stock.value) else NoStock
  }

  datatype Row = Row(postId: int, title: string, image: Option<string>, price: string, stock: StockCell, views: int)

  function RowOf(p: Post): Row
  {
    Row(p.id, p.title,
      if p.product.Some? && Truthy(p.product.value.productImageUrl) then p.product.value.productImageUrl else None,
      PriceText(p.product), StockOf(p.product), p.viewCount)
  }

  const WelcomePrefix: string := "欢迎回来，"

  /** The header's `欢迎回来，{user?.username}`: React renders an undefined
      child as nothing, so without a user only the prefix shows. */
  function Greeting(user: Option<User>): (g: string)
    ensures user.Some? ==> g == WelcomePrefix + user.value.username
    ensures user.None? ==> g == WelcomePrefix
  {
    if user.Some? then WelcomePrefix + user.value.username else WelcomePrefix
  }

  datatype DashboardView = LoadingView | NoProducts(greeting: string) | Products(greeting: string, stats: Stats, rows: seq<Row>)

  class MerchantDashboard {
    var products: seq<Post>
    var loading: bool
    var stats: Stats

    constructor ()
      ensures products == [] && loading && stats == Stats(0, 0)
    {
      products := [];
      loading := true;
      stats := Stats(0, 0);
    }

    /** The effect up to its first await: wait for the session, send
        visitors to the login page, else check the merchant record (the
        header is sent even without a token). */
    method BeginFetch(auth: Auth) returns (request: Option<MerchantRequest>, effects: seq<Effect>)
      ensures request.Some? <==> !auth.isLoading && auth.isAuthenticated
      ensures request.Some? ==> request.value == MerchantRequest(AuthHeader(auth))
      ensures effects == (if !auth.isLoading && !auth.isAuthenticated then [Navigate("/login")] else [])
    {
      request := None;
      effects := [];
      if auth.isLoading {
        return;
      }
      if !auth.isAuthenticated {
        effects := [Navigate("/login")];
        return;
      }
      request := Some(MerchantRequest(AuthHeader(auth)));
    }

    /** After the merchant check: anything but `approved` goes to the
        application page, and the `finally` still ends loading; an approved
        merchant's products are requested next. */
    method CompleteMerchant(outcome: Outcome<string, ()>, auth: Auth) returns (next: Option<ProductsRequest>, effects: seq<Effect>)
      modifies this
      ensures products == old(products) && stats == old(stats)
      ensures next.Some? <==> outcome.Success? && outcome.payload == ApprovedStatus
      ensures next.Some? ==> next.value == ProductsRequest(ProductsPath(auth.user), AuthHeader(auth)) && loading == old(loading) && effects == []
      ensures outcome.Success? && outcome.payload != ApprovedStatus ==> !loading && effects == [Navigate("/merchant/apply")]
      ensures outcome.Failure? ==> !loading && effects == [LogError("")]
    {
      next := None;
      if outcome.Failure? {
        effects := [LogError("")];
        loading := false;
      } else if outcome.payload != ApprovedStatus {
        effects := [Navigate("/merchant/apply")];
        loading := false;
      } else {
        effects := [];
        next := Some(ProductsRequest(ProductsPath(auth.user), AuthHeader(auth)));
      }
    }

    /** After the product list: the list is kept and its views summed;
        loading ends either way. */
    method CompleteProducts(outcome: Outcome<Payload<Post>, ()>) returns (effects: seq<Effect>)
      modifies this
      ensures !loading
      ensures outcome.Success? ==>
        && products == ArrayOrResults(outcome.payload)
        && stats == Stats(0, TotalViews(products)) && effects == []
      ensures outcome.Failure? ==> products == old(products) && stats == old(stats) && effects == [LogError("")]
    {
      if outcome.Success? {
        var data := ArrayOrResults(outcome.payload);
        products := data;
        var views := SumViews(data);
        stats := Stats(0, views);
        effects := [];
      } else {
        effects := [LogError("")];
      }
      loading := false;
    }

    function View(auth: Auth): (v: DashboardView)
      reads this
      ensures v == LoadingView <==> auth.isLoading || loading
      ensures v.NoProducts? <==> !auth.isLoading && !loading && products == []
      ensures v != LoadingView ==> v.greeting == Greeting(auth.user)
      ensures v.Products? ==> |v.rows| == |products| && v.stats == stats
      ensures v.Products? ==> forall i :: 0 <= i < |products| ==> v.rows[i] == RowOf(products[i])
    {
      if auth.isLoading || loading then LoadingView
      else if products == [] then NoProducts(Greeting(auth.user))
      else
        var ps := products;
        Products(Greeting(auth.user), stats, seq(|ps|, i requires 0 <= i < |ps| => RowOf(ps[i])))
    }
  }
}
