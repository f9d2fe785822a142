/** The merchant's "new product" form (app/merchant/products/new/page.tsx):
    topics loaded on mount, a list of chosen images kept in step with their
    preview URLs, and a multipart submit that requires at least one image. */
module NewProductPage {
  import opened Common
  import opened Types

  /** One `formData.append(name, value)`. */
  datatype FormEntry = TextField(name: string, value: string) | FileField(name: string, file: File)

  /** `POST /api/v1/posts/` with a multipart body. */
  datatype CreateProductRequest = CreateProductRequest(form: seq<FormEntry>, authorization: string)

  const NoImageError: string := "请至少上传一张商品图片"
  const SubmitFailedError: string := "发布失败，请检查网络。"
  const DashboardPath: string := "/merchant/dashboard"

  /** `filter((_, i) => i !== index)`: walks the list keeping every element
      whose position differs from `index`. */
  function FilterIndex<T>(s: seq<T>, index: int): (r: seq<T>)
    ensures |r| <= |s|
    decreases |s|
  {
    if s == [] then []
    else (if index == 0 then [] else [s[0]]) + FilterIndex(s[1..], index - 1)
  }

  /** The reference meaning of removal: the element at `index` cut out, or
      the list unchanged when `index` is out of range. */
  function Without<T>(s: seq<T>, index: int): seq<T>
  {
    if 0 <= index < |s| then s[..index] + s[index + 1..] else s
  }

  /** The filter removes exactly the element at `index`. */
  lemma {:induction false} FilterIndexIsWithout<T>(s: seq<T>, index: int)
    ensures FilterIndex(s, index) == Without(s, index)
    decreases |s|
  {
    if s != [] {
      FilterIndexIsWithout(s[1..], index - 1);
      var rest := FilterIndex(s[1..], index - 1);
      if index == 0 {
        assert FilterIndex(s, index) == rest;
        assert Without(s, 0) == s[1..];
      } else if 0 < index < |s| {
        assert FilterIndex(s, index) == [s[0]] + rest;
        assert rest == s[1..][..index - 1] + s[1..][index..];
        WithoutCons(s, index);
      } else {
        assert FilterIndex(s, index) == [s[0]] + rest;
        assert rest == s[1..];
        assert [s[0]] + s[1..] == s;
      }
    }
  }

  /** Cutting out a later element commutes with putting back the first. */
  lemma WithoutCons<T>(s: seq<T>, index: int)
    requires 0 < index < |s|
    ensures [s[0]] + (s[1..][..index - 1] + s[1..][index..]) == s[..index] + s[index + 1..]
  {
    assert s[1..][..index - 1] == s[1..index];
    assert s[1..][index..] == s[index + 1..];
    assert s[..index] == [s[0]] + s[1..index];
  }

  /** Removal shifts every element after `index` down by one and keeps the
      ones before it in place. */
  lemma WithoutShifts<T>(s: seq<T>, index: int)
    ensures |Without(s, index)| == if 0 <= index < |s| then |s| - 1 else |s|
    ensures forall j :: 0 <= j < |Without(s, index)| ==>
      Without(s, index)[j] == s[if 0 <= index <= j then j + 1 else j]
  {
    if 0 <= index < |s| {
      var w := Without(s, index);
      forall j | 0 <= j < |w|
        ensures w[j] == s[if index <= j then j + 1 else j]
      {
        if j < index {
          assert w[j] == s[..index][j];
        } else {
          assert w[j] == s[index + 1..][j - index];
        }
      }
    }
  }

  /** Removal from two lists of equal length at the same index keeps them of
      equal length and keeps every surviving pair together. */
  lemma WithoutKeepsPairs<A, B>(a: seq<A>, b: seq<B>, index: int)
    requires |a| == |b|
    ensures |Without(a, index)| == |Without(b, index)|
    ensures forall j :: 0 <= j < |Without(a, index)| ==>
      var k := if 0 <= index <= j then j + 1 else j;
      k < |a| && Without(a, index)[j] == a[k] && Without(b, index)[j] == b[k]
  {
    WithoutShifts(a, index);
    WithoutShifts(b, index);
  }

  /** The body as `handleSubmit` assembles it: five text fields, then one
      `uploaded_images` entry per image in list order. */
  function FormOf(title: string, content: string, topic: string, price: string, stock: string, images: seq<File>): seq<FormEntry>
  {
    [TextField("title", title), TextField("content", content), TextField("topic", topic),
     TextField("price", price), TextField("stock", stock)]
    + ImageEntries(images)
  }

  function ImageEntries(images: seq<File>): (r: seq<FormEntry>)
    ensures |r| == |images|
    ensures forall i :: 0 <= i < |images| ==> r[i] == FileField("uploaded_images", images[i])
  {
    seq(|images|, i requires 0 <= i < |images| => FileField("uploaded_images", images[i]))
  }

  /** The assembled body carries every image once, in order, after the text
      fields. */
  lemma FormCarriesAllImages(title: string, content: string, topic: string, price: string, stock: string, images: seq<File>)
    ensures var f := FormOf(title, content, topic, price, stock, images);
      && |f| == 5 + |images|
      && f[0] == TextField("title", title) && f[1] == TextField("content", content)
      && f[2] == TextField("topic", topic)
      && f[3] == TextField("price", price) && f[4] == TextField("stock", stock)
      && (forall i :: 0 <= i < |images| ==> f[5 + i] == FileField("uploaded_images", images[i]))
  {
  }

  class NewProductPage {
    var title: string
    var content: string
    var price: string
    var stock: string
    var selectedTopic: string
    var images: seq<File>
    var imagePreviews: seq<string>
    var error: Option<string>
    var topics: seq<Topic>
    var isLoading: bool

    /** Each chosen image has its preview at the same position. */
    predicate Valid()
      reads this
    {
      |images| == |imagePreviews|
    }

    constructor ()
      ensures Valid() && images == [] && imagePreviews == [] && topics == []
      ensures title == "" && content == "" && price == "" && stock == "" && selectedTopic == ""
      ensures error == None && !isLoading
    {
      title, content, price, stock, selectedTopic := "", "", "", "", "";
      images, imagePreviews := [], [];
      error := None;
      topics := [];
      isLoading := false;
    }

    /** The text inputs' `onChange`. */
    method EditFields(title: string, content: string, price: string, stock: string, topic: string)
      modifies this
      ensures this.title == title && this.content == content && this.price == price
      ensures this.stock == stock && selectedTopic == topic
      ensures images == old(images) && imagePreviews == old(imagePreviews) && topics == old(topics)
      ensures error == old(error) && isLoading == old(isLoading)
    {
      this.title, this.content, this.price, this.stock, selectedTopic := title, content, price, stock, topic;
    }

    /** `fetchTopics` after its GET: the topic list is replaced and its first
        entry preselected; a failure only logs. */
    method CompleteFetchTopics(outcome: Outcome<Payload<Topic>, ()>) returns (effects: seq<Effect>)
      modifies this
      ensures images == old(images) && imagePreviews == old(imagePreviews) && error == old(error)
      ensures isLoading == old(isLoading) && title == old(title) && content == old(content)
      ensures price == old(price) && stock == old(stock)
      ensures outcome.Success? ==> topics == ArrayOrResults(outcome.payload) && effects == []
      ensures outcome.Success? && topics != [] ==> selectedTopic == topics[0].slug
      ensures outcome.Success? && topics == [] ==> selectedTopic == old(selectedTopic)
      ensures outcome.Failure? ==> topics == old(topics) && selectedTopic == old(selectedTopic) && effects == [LogError("")]
    {
      if outcome.Success? {
        var data := ArrayOrResults(outcome.payload);
        topics := data;
        if |data| > 0 {
          selectedTopic := data[0].slug;
        }
        effects := [];
      } else {
        effects := [LogError("")];
      }
    }

    /** `handleImageChange`: a non-empty selection is appended, its preview
        URLs (from `URL.createObjectURL`, one per file) likewise. */
    method AddImages(files: Option<seq<File>>, previews: seq<string>)
      requires Valid()
      requires files.Some? ==> |previews| == |files.value|
      modifies this
      ensures Valid()
      ensures files.Some? && files.value != [] ==>
        images == old(images) + files.value && imagePreviews == old(imagePreviews) + previews
      ensures !(files.Some? && files.value != []) ==>
        images == old(images) && imagePreviews == old(imagePreviews)
      ensures error == old(error) && isLoading == old(isLoading) && topics == old(topics)
      ensures title == old(title) && content == old(content) && price == old(price)
      ensures stock == old(stock) && selectedTopic == old(selectedTopic)
    {
      if files.Some? && |files.value| > 0 {
        images := images + files.value;
        imagePreviews := imagePreviews + previews;
      }
    }

    /** `removeImage`: the same position goes from both lists. */
    method RemoveImage(index: int)
      requires Valid()
      modifies this
      ensures Valid()
      ensures images == Without(old(images), index) && imagePreviews == Without(old(imagePreviews), index)
      ensures error == old(error) && isLoading == old(isLoading) && topics == old(topics)
      ensures title == old(title) && content == old(content) && price == old(price)
      ensures stock == old(stock) && selectedTopic == old(selectedTopic)
    {
      FilterIndexIsWithout(images, index);
      FilterIndexIsWithout(imagePreviews, index);
      images := FilterIndex(images, index);
      imagePreviews := FilterIndex(imagePreviews, index);
    }

    /** The `forEach` that appends the fields and the images to the form. */
    method BuildForm() returns (form: seq<FormEntry>)
      ensures form == FormOf(title, content, selectedTopic, price, stock, images)
    {
      form := [TextField("title", title), TextField("content", content), TextField("topic", selectedTopic),
               TextField("price", price), TextField("stock", stock)];
      var i := 0;
      while i < |images|
        invariant 0 <= i <= |images|
        invariant |form| == 5 + i
        invariant form[..5] == FormOf(title, content, selectedTopic, price, stock, images)[..5]
        invariant forall k :: 0 <= k < i ==> form[5 + k] == FileField("uploaded_images", images[k])
      {
        form := form + [FileField("uploaded_images", images[i])];
        i := i + 1;
      }
      assert form[5..] == ImageEntries(images);
      assert form == form[..5] + form[5..];
    }

    /** `handleSubmit` up to the await: the error is cleared; with no image
        it is set and nothing is sent; otherwise the form is sent.
        The browser submits the form only with every `required` input filled. */
    method BeginSubmit(auth: Auth) returns (request: Option<CreateProductRequest>)
      requires title != "" && content != "" && price != "" && stock != "" && selectedTopic != ""
      modifies this
      ensures images == old(images) && imagePreviews == old(imagePreviews) && topics == old(topics)
      ensures title == old(title) && content == old(content) && price == old(price)
      ensures stock == old(stock) && selectedTopic == old(selectedTopic)
      ensures old(images) == [] ==> request == None && error == Some(NoImageError) && isLoading == old(isLoading)
      ensures old(images) != [] ==>
        && error == None && isLoading
        && request == Some(CreateProductRequest(FormOf(title, content, selectedTopic, price, stock, images), AuthHeader(auth)))
    {
      error := None;
      if |images| == 0 {
        error := Some(NoImageError);
        return None;
      }
      isLoading := true;
      var form := BuildForm();
      request := Some(CreateProductRequest(form, AuthHeader(auth)));
    }

    /** `handleSubmit` after the await: success goes to the dashboard;
        failure logs and shows the network error. Loading ends either way. */
    method CompleteSubmit(outcome: Outcome<(), ()>) returns (effects: seq<Effect>)
      modifies this
      ensures !isLoading
      ensures images == old(images) && imagePreviews == old(imagePreviews) && topics == old(topics)
      ensures title == old(title) && content == old(content) && price == old(price)
      ensures stock == old(stock) && selectedTopic == old(selectedTopic)
      ensures outcome.Success? ==> error == old(error) && effects == [Navigate(DashboardPath)]
      ensures outcome.Failure? ==> error == Some(SubmitFailedError) && effects == [LogError("")]
    {
      if outcome.Success? {
        effects := [Navigate(DashboardPath)];
      } else {
        effects := [LogError("")];
        error := Some(SubmitFailedError);
      }
      isLoading := false;
    }

    /** The submit button reads "发布中..." and is disabled while loading. */
    function SubmitLabel(): (s: string)
      reads this
      ensures s == "发布中..." <==> isLoading
    {
      if isLoading then "发布中..." else "立即上架"
    }
  }

  /** Signed-out visitors see only the login hint. */
  predicate ShowsForm(auth: Auth): (shown: bool)
    ensures !auth.isAuthenticated ==> !shown
    ensures auth.isAuthenticated ==> shown
  {
    auth.isAuthenticated
  }

  /** Adding two images and removing the first leaves the second with its
      own preview. */
  method RemoveScenario(a: File, b: File)
  {
    var p := new NewProductPage();
    p.AddImages(Some([a, b]), ["blob:a", "blob:b"]);
    p.RemoveImage(0);
    assert p.images == [b] && p.imagePreviews == ["blob:b"];
    p.RemoveImage(5);
    assert p.images == [b];
  }

  /** What was typed and chosen before submitting is what the request
      carries. */
  method SubmitScenario(f: File, auth: Auth)
  {
    var p := new NewProductPage();
    p.AddImages(Some([f]), ["blob:f"]);
    p.EditFields("t", "c", "9", "1", "s");
    var req := p.BeginSubmit(auth);
    assert req.value.form == FormOf("t", "c", "s", "9", "1", [f]);
  }
}
