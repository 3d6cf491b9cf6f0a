/** A roadmap card's thumbnail: its id and its table of image urls
    (ParseRoadMapCardThumbnail in src/StarCitizenAPIWrapper.Library/StarCitizenClient.cs). */
module RoadmapThumbnail {
  import opened Wrappers
  import opened JsonValue

  /** The thumbnail record; `Urls` is a dictionary from size name to url. */
  datatype Thumbnail = Thumbnail(id: Option<string>, urls: map<string, string>)

  /** What is stored for a url child: the property's own string form
      `"name": value`, as the code does, or the value's string form, as the
      other url tables of the client do. */
  datatype UrlValue = PropertyString | ValueString

  function EntryText(mode: UrlValue, name: string, value: Json): string {
    match mode
    case PropertyString => PropertyText(name, value)
    case ValueString => Text(value)
  }

  /** The url table after adding every child in order. A child that is not a
      property is null after the `as JProperty` cast and throws on `.Name`;
      `Dictionary.Add` throws on a name already present. */
  function UrlTable(children: seq<Child>, mode: UrlValue): Outcome<map<string, string>>
    decreases |children|
  {
    if children == [] then Success(map[])
    else
      var urls :- UrlTable(children[..|children| - 1], mode);
      match children[|children| - 1]
      case Elem(_) => Failure(NullReference)
      case Prop(name, value) =>
        if name in urls then Failure(DuplicateKey(name))
        else Success(urls[name := EntryText(mode, name, value)])
  }

  predicate AllProperties(children: seq<Child>) {
    forall i :: 0 <= i < |children| ==> children[i].Prop?
  }

  predicate DistinctNames(children: seq<Child>)
    requires AllProperties(children)
  {
    forall i, j :: 0 <= i < j < |children| ==> children[i].name != children[j].name
  }

  function NamesOf(children: seq<Child>): set<string>
    requires AllProperties(children)
  {
    set i | 0 <= i < |children| :: children[i].name
  }

  /** A built table is the table of all children but the last, plus the
      last child, which is a property with a fresh name. */
  lemma UrlTableSnoc(children: seq<Child>, mode: UrlValue)
    requires children != [] && UrlTable(children, mode).Success?
    ensures UrlTable(children[..|children| - 1], mode).Success?
    ensures children[|children| - 1].Prop?
    ensures children[|children| - 1].name !in UrlTable(children[..|children| - 1], mode).value
    ensures UrlTable(children, mode).value == UrlTable(children[..|children| - 1], mode).value[
      children[|children| - 1].name := EntryText(mode, children[|children| - 1].name, children[|children| - 1].value)]
  {
  }

  lemma NamesOfSnoc(children: seq<Child>)
    requires children != [] && AllProperties(children[..|children| - 1]) && children[|children| - 1].Prop?
    ensures AllProperties(children)
    ensures NamesOf(children) == NamesOf(children[..|children| - 1]) + {children[|children| - 1].name}
  {
    var init := children[..|children| - 1];
    forall i | 0 <= i < |init| ensures children[i] == init[i] {}
  }

  /** A built table has exactly the children's names as keys. */
  lemma {:induction false} UrlTableKeys(children: seq<Child>, mode: UrlValue)
    requires UrlTable(children, mode).Success?
    ensures AllProperties(children)
    ensures UrlTable(children, mode).value.Keys == NamesOf(children)
    decreases |children|
  {
    if children != [] {
      var init := children[..|children| - 1];
      UrlTableSnoc(children, mode);
      UrlTableKeys(init, mode);
      NamesOfSnoc(children);
    }
  }

  /** A built table maps the name of the child at `i` to that child's entry. */
  lemma {:induction false} UrlTableAt(children: seq<Child>, i: nat, mode: UrlValue)
    requires UrlTable(children, mode).Success? && i < |children|
    ensures children[i].Prop? && children[i].name in UrlTable(children, mode).value
    ensures UrlTable(children, mode).value[children[i].name] == EntryText(mode, children[i].name, children[i].value)
    decreases |children|
  {
    var init := children[..|children| - 1];
    UrlTableSnoc(children, mode);
    var acc := UrlTable(init, mode).value;
    var last := children[|children| - 1];
    var table := UrlTable(children, mode).value;
    assert table == acc[last.name := EntryText(mode, last.name, last.value)];
    if i < |init| {
      UrlTableAt(init, i, mode);
      assert children[i] == init[i];
      assert children[i].name in acc && last.name !in acc;
      assert table[children[i].name] == acc[children[i].name];
    } else {
      assert children[i] == last;
    }
  }

  /** A built table maps each child's name to that child's entry. */
  lemma UrlTableEntries(children: seq<Child>, mode: UrlValue)
    requires UrlTable(children, mode).Success?
    ensures AllProperties(children)
    ensures UrlTable(children, mode).value.Keys == NamesOf(children)
    ensures forall i :: 0 <= i < |children| ==>
      UrlTable(children, mode).value[children[i].name] == EntryText(mode, children[i].name, children[i].value)
  {
    UrlTableKeys(children, mode);
    forall i | 0 <= i < |children|
      ensures UrlTable(children, mode).value[children[i].name] == EntryText(mode, children[i].name, children[i].value)
    {
      UrlTableAt(children, i, mode);
    }
  }

  /** Only property children with pairwise different names build a table. */
  lemma {:induction false} UrlTableDistinct(children: seq<Child>, mode: UrlValue)
    requires UrlTable(children, mode).Success?
    ensures AllProperties(children) && DistinctNames(children)
    decreases |children|
  {
    if children != [] {
      var init := children[..|children| - 1];
      UrlTableSnoc(children, mode);
      UrlTableDistinct(init, mode);
      UrlTableKeys(init, mode);
      NamesOfSnoc(children);
      forall i, j | 0 <= i < j < |children| ensures children[i].name != children[j].name {
        assert children[i] == init[i];
        if j < |init| {
          assert children[j] == init[j];
        } else {
          assert children[i].name in NamesOf(init);
        }
      }
    }
  }

  /** Property children with pairwise different names always build a table. */
  lemma {:induction false} UrlTableBuilt(children: seq<Child>, mode: UrlValue)
    requires AllProperties(children) && DistinctNames(children)
    ensures UrlTable(children, mode).Success?
    decreases |children|
  {
    if children != [] {
      var init := children[..|children| - 1];
      assert forall i :: 0 <= i < |init| ==> init[i] == children[i];
      UrlTableBuilt(init, mode);
      UrlTableKeys(init, mode);
    }
  }

  /** The table is built exactly when every child is a property and no name
      repeats; its keys are then the children's names. */
  lemma UrlTableSucceeds(children: seq<Child>, mode: UrlValue)
    ensures UrlTable(children, mode).Success? <==> AllProperties(children) && DistinctNames(children)
    ensures UrlTable(children, mode).Success? ==> UrlTable(children, mode).value.Keys == NamesOf(children)
  {
    if UrlTable(children, mode).Success? {
      UrlTableDistinct(children, mode);
      UrlTableKeys(children, mode);
    } else if AllProperties(children) && DistinctNames(children) {
      UrlTableBuilt(children, mode);
    }
  }

  /** The thumbnail as the code builds it. A null card throws on `["id"]`,
      a non-object card cannot be indexed, and a missing `urls` leaves a
      null sequence that the loop throws on. */
  function ThumbnailOf(currentValue: Option<Json>, mode: UrlValue): Outcome<Thumbnail> {
    match currentValue
    case None => Failure(NullReference)
    case Some(Obj(props)) =>
      (match Lookup(props, "urls")
       case None => Failure(NullReference)
       case Some(urls) =>
         var table :- UrlTable(Children(urls), mode);
         Success(Thumbnail(TextOf(Lookup(props, "id")), table)))
    case Some(_) => Failure(InvalidKeyAccess)
  }

  /** ParseRoadMapCardThumbnail as written: each url child's name is the
      key and the child's own string form is the value. */
  method ParseRoadMapCardThumbnail(currentValue: Option<Json>) returns (r: Outcome<Thumbnail>)
    ensures r == ThumbnailOf(currentValue, PropertyString)
  {
    if currentValue.None? {
      return Failure(NullReference);
    }
    if !currentValue.value.Obj? {
      return Failure(InvalidKeyAccess);
    }
    var props := currentValue.value.props;
    var urlsToken := Lookup(props, "urls");
    if urlsToken.None? {
      return Failure(NullReference);
    }
    var children := Children(urlsToken.value);
    var urls: map<string, string> := map[];
    var i := 0;
    while i < |children|
      invariant 0 <= i <= |children|
      invariant UrlTable(children[..i], PropertyString) == Success(urls)
    {
      assert children[..i + 1][..i] == children[..i];
      var x := children[i];
      if x.Elem? || x.name in urls {
        UrlTableStopsAtFailure(children, i + 1, PropertyString);
        return Failure(if x.Elem? then NullReference else DuplicateKey(x.name));
      }
      urls := urls[x.name := PropertyText(x.name, x.value)];
      i := i + 1;
    }
    assert children[..i] == children;
    return Success(Thumbnail(TextOf(Lookup(props, "id")), urls));
  }

  lemma {:induction false} UrlTableStopsAtFailure(children: seq<Child>, n: nat, mode: UrlValue)
    requires n <= |children| && UrlTable(children[..n], mode).Failure?
    ensures UrlTable(children, mode) == UrlTable(children[..n], mode)
    decreases |children| - n
  {
    if n < |children| {
      var init := children[..|children| - 1];
      assert init[..n] == children[..n];
      UrlTableStopsAtFailure(init, n, mode);
    } else {
      assert children[..n] == children;
    }
  }

  /** The card `{"urls": {"small": "u"}}` gets the url `"small": "u"` for
      "small" instead of `u`. */
  lemma ThumbnailStoresPropertyText()
    ensures ThumbnailOf(Some(Obj([("urls", Obj([("small", Str("u"))]))])), PropertyString)
      == Success(Thumbnail(None, map["small" := "\"small\": \"u\""]))
    ensures "\"small\": \"u\"" != "u"
  {
    SmallPropertyText();
    var props := [("urls", Obj([("small", Str("u"))]))];
    assert Lookup(props, "urls") == Some(Obj([("small", Str("u"))]));
    assert Lookup(props, "id") == None;
    var children := Children(Obj([("small", Str("u"))]));
    assert children == [Prop("small", Str("u"))];
    assert children[..0] == [];
  }

  lemma QuoteSmall()
    ensures Quote("small") == "\"small\""
  {
    assert Escape("small") == "small";
  }

  lemma QuoteU()
    ensures Serialize(Str("u")) == "\"u\""
  {
    assert Escape("u") == "u";
  }

  lemma SmallPropertyText()
    ensures PropertyText("small", Str("u")) == "\"small\": \"u\""
  {
    QuoteSmall();
    QuoteU();
    assert "\"small\"" + ": " == "\"small\": ";
    assert "\"small\": " + "\"u\"" == "\"small\": \"u\"";
  }

  /** The thumbnail as evidently intended: each url is the value's string form. */
  function CorrectedThumbnail(currentValue: Option<Json>): (r: Outcome<Thumbnail>)
    ensures r.Success? ==>
      currentValue.Some? && currentValue.value.Obj?
      && r.value.id == TextOf(Lookup(currentValue.value.props, "id"))
  {
    ThumbnailOf(currentValue, ValueString)
  }

  /** For a card object whose `urls` is an object, as parsing yields with
      distinct member names, the corrected thumbnail maps each size name to
      its url and to nothing else. */
  lemma CorrectedThumbnailUrls(props: seq<(string, Json)>, urls: seq<(string, Json)>)
    requires Lookup(props, "urls") == Some(Obj(urls))
    requires DistinctKeys(urls)
    ensures CorrectedThumbnail(Some(Obj(props))).Success?
    ensures CorrectedThumbnail(Some(Obj(props))).value.urls.Keys == set i | 0 <= i < |urls| :: urls[i].0
    ensures forall i :: 0 <= i < |urls| ==> CorrectedThumbnail(Some(Obj(props))).value.urls[urls[i].0] == Text(urls[i].1)
  {
    var children := Children(Obj(urls));
    MemberChildren(urls);
    UrlTableBuilt(children, ValueString);
    UrlTableEntries(children, ValueString);
    var table := UrlTable(children, ValueString).value;
    assert CorrectedThumbnail(Some(Obj(props))) == Success(Thumbnail(TextOf(Lookup(props, "id")), table));
    forall i | 0 <= i < |urls| ensures table[urls[i].0] == Text(urls[i].1) {
      assert children[i] == Prop(urls[i].0, urls[i].1);
    }
  }

  /** An object's children are properties named by its member names, and
      distinct member names stay distinct. */
  lemma MemberChildren(urls: seq<(string, Json)>)
    requires DistinctKeys(urls)
    ensures AllProperties(Children(Obj(urls)))
    ensures DistinctNames(Children(Obj(urls)))
    ensures NamesOf(Children(Obj(urls))) == set i | 0 <= i < |urls| :: urls[i].0
  {
  }
}
