/** How the client turns the `data` member of a response into a list
    (src/StarCitizenAPIWrapper.Library/StarCitizenClient.cs). The mapping
    engine's parse of one item is a parameter; it may throw, and a throw
    ends the whole list. */
module ResponseShapes {
  import opened Wrappers
  import opened JsonValue
  import opened Collect

  predicate IsArray(data: Option<Json>) { data.Some? && data.value.Arr? }

  /** `string.IsNullOrEmpty(data?.ToString())`: no token, a JSON null or the
      empty string. */
  predicate IsNullOrEmptyText(data: Option<Json>)
    ensures IsNullOrEmptyText(data) <==> data.None? || data.value == Null || data.value == Str("")
  {
    TextIsEmptyOf(data);
    data.None? || Text(data.value) == ""
  }

  lemma TextIsEmptyOf(data: Option<Json>)
    ensures data.Some? ==> (Text(data.value) == "" <==> data.value == Null || data.value == Str(""))
  {
    if data.Some? { TextIsEmpty(data.value); }
  }

  /** The array's elements as (non-null) tokens, in order. */
  function Tokens(items: seq<Json>): (ts: seq<Option<Json>>)
    ensures |ts| == |items| && forall i :: 0 <= i < |items| ==> ts[i] == Some(items[i])
  {
    seq(|items|, i requires 0 <= i < |items| => Some(items[i]))
  }

  /** Tunnels and systems: an array gives one item per entry, in order; any
      other `data`, a missing one included, is parsed as a single item. */
  method ArrayOrSingle<T>(data: Option<Json>, parse: Option<Json> -> Outcome<T>) returns (list: Outcome<seq<T>>)
    ensures IsArray(data) ==> ParsedInOrder(Tokens(data.value.items), parse, list)
    ensures !IsArray(data) ==> ParsedInOrder([data], parse, list)
  {
    var items: seq<T> := [];
    if IsArray(data) {
      MapAllInOrder(Tokens(data.value.items), parse);
      var parsed :- MapAll(Tokens(data.value.items), parse);
      items := items + parsed;
    } else {
      SingleInOrder(data, parse);
      var one :- parse(data);
      items := items + [one];
    }
    return Success(items);
  }

  /** One item parsed on its own: its result as a one-element list, or its
      failure. */
  lemma SingleInOrder<T>(data: Option<Json>, parse: Option<Json> -> Outcome<T>)
    ensures parse(data).Success? ==> ParsedInOrder([data], parse, Success([parse(data).value]))
    ensures parse(data).Failure? ==> ParsedInOrder([data], parse, Failure(parse(data).error))
  {
    assert [data][0] == data;
  }

  /** Species and affiliations: an empty list for a null or empty `data`,
      otherwise the array-or-single rule. */
  method EmptyOrArrayOrSingle<T>(data: Option<Json>, parse: Option<Json> -> Outcome<T>) returns (list: Outcome<seq<T>>)
    ensures IsNullOrEmptyText(data) ==> list == Success([])
    ensures !IsNullOrEmptyText(data) && IsArray(data) ==> ParsedInOrder(Tokens(data.value.items), parse, list)
    ensures !IsNullOrEmptyText(data) && !IsArray(data) ==> ParsedInOrder([data], parse, list)
  {
    var items: seq<T> := [];
    if IsNullOrEmptyText(data) {
      return Success(items);
    }
    if IsArray(data) {
      MapAllInOrder(Tokens(data.value.items), parse);
      var parsed :- MapAll(Tokens(data.value.items), parse);
      items := items + parsed;
    } else {
      SingleInOrder(data, parse);
      var one :- parse(data);
      items := items + [one];
    }
    return Success(items);
  }

  /** The ship entries that are parsed: those whose string form is not empty,
      in their original order. */
  function KeptEntries(items: seq<Json>): (kept: seq<Json>)
    ensures |kept| <= |items|
    decreases |items|
  {
    if items == [] then [] else KeptEntries(items[..|items| - 1]) + Kept(items[|items| - 1])
  }

  /** One entry, kept or dropped: an entry is dropped when its string form
      is empty, which is exactly a JSON null or the empty string. */
  function Kept(x: Json): (kept: seq<Json>)
    ensures |kept| <= 1
  {
    if x == Null || x == Str("") then [] else [x]
  }

  /** An entry is kept exactly when it is in the input and not empty. */
  lemma {:induction false} KeptEntriesMembers(items: seq<Json>)
    ensures forall x :: x in KeptEntries(items) <==> x in items && x != Null && x != Str("")
    decreases |items|
  {
    if items != [] {
      var init := items[..|items| - 1];
      KeptEntriesMembers(init);
      FrontLast(items);
    }
  }

  /** Filtering a concatenation filters each part: the kept entries stay in
      input order. */
  lemma {:induction false} KeptEntriesConcat(a: seq<Json>, b: seq<Json>)
    ensures KeptEntries(a + b) == KeptEntries(a) + KeptEntries(b)
    decreases |b|
  {
    if b == [] {
      assert a + b == a;
    } else {
      var init, last := b[..|b| - 1], b[|b| - 1];
      var ab := a + b;
      assert ab[..|ab| - 1] == a + init;
      assert ab[|ab| - 1] == last;
      calc {
        KeptEntries(ab);
        KeptEntries(a + init) + Kept(last);
        { KeptEntriesConcat(a, init); }
        KeptEntries(a) + KeptEntries(init) + Kept(last);
        KeptEntries(a) + KeptEntries(b);
      }
    }
  }

  /** Without empty entries nothing is dropped. */
  lemma {:induction false} KeptEntriesAllNonEmpty(items: seq<Json>)
    requires forall i :: 0 <= i < |items| ==> items[i] != Null && items[i] != Str("")
    ensures KeptEntries(items) == items
    decreases |items|
  {
    if items != [] {
      var init, last := items[..|items| - 1], items[|items| - 1];
      assert forall i :: 0 <= i < |init| ==> init[i] == items[i];
      KeptEntriesAllNonEmpty(init);
      assert Kept(last) == [last];
      FrontLast(items);
    }
  }

  /** Ships: `data` must be an array (iterating a null list throws); entries
      with an empty string form are skipped, the others parsed in order, and
      the first entry whose parse throws ends the list with its failure. */
  method GetShips<T>(data: Option<Json>, parse: Json -> Outcome<T>) returns (r: Outcome<seq<T>>)
    ensures !IsArray(data) ==> r == Failure(NullReference)
    ensures IsArray(data) ==> r == MapAll(KeptEntries(data.value.items), parse)
    ensures IsArray(data) ==> ParsedInOrder(KeptEntries(data.value.items), parse, r)
  {
    if !IsArray(data) {
      return Failure(NullReference);
    }
    var items := data.value.items;
    var ships: seq<T> := [];
    var i := 0;
    while i < |items|
      invariant 0 <= i <= |items|
      invariant MapAll(KeptEntries(items[..i]), parse) == Success(ships)
    {
      ShipStep(items, i, ships, parse);
      if Text(items[i]) == "" {
        i := i + 1;
        continue;
      }
      var ship := parse(items[i]);
      if ship.Failure? {
        ShipFailureAt(items, i, parse);
        MapAllInOrder(KeptEntries(items), parse);
        return Failure(ship.error);
      }
      ships := ships + [ship.value];
      i := i + 1;
    }
    assert items[..i] == items;
    MapAllInOrder(KeptEntries(items), parse);
    return Success(ships);
  }

  /** One turn of the ships loop: an empty entry leaves the list as it was,
      any other entry appends its parse when that parse succeeds. */
  lemma ShipStep<T>(items: seq<Json>, i: nat, ships: seq<T>, parse: Json -> Outcome<T>)
    requires i < |items| && MapAll(KeptEntries(items[..i]), parse) == Success(ships)
    ensures Text(items[i]) == "" ==> MapAll(KeptEntries(items[..i + 1]), parse) == Success(ships)
    ensures Text(items[i]) != "" && parse(items[i]).Success? ==>
      MapAll(KeptEntries(items[..i + 1]), parse) == Success(ships + [parse(items[i]).value])
  {
    KeptStep(items, i);
    TextIsEmpty(items[i]);
    if Text(items[i]) == "" {
      assert KeptEntries(items[..i]) + [] == KeptEntries(items[..i]);
    } else {
      MapAllSnoc(KeptEntries(items[..i]), items[i], parse);
    }
  }

  /** The ships loop's early exit: a non-empty entry whose parse fails, after
      a prefix that parsed, is the outcome of the whole list. */
  lemma ShipFailureAt<T>(items: seq<Json>, i: nat, parse: Json -> Outcome<T>)
    requires i < |items| && MapAll(KeptEntries(items[..i]), parse).Success?
    requires Text(items[i]) != "" && parse(items[i]).Failure?
    ensures MapAll(KeptEntries(items), parse) == Failure(parse(items[i]).error)
  {
    var kept := KeptEntries(items[..i]);
    assert KeptEntries(items[..i + 1]) == kept + [items[i]] by {
      KeptStep(items, i);
      TextIsEmpty(items[i]);
    }
    assert MapAll(kept + [items[i]], parse) == Failure(parse(items[i]).error) by {
      MapAllSnoc(kept, items[i], parse);
    }
    ShipFailureEndsList(items[..i + 1], items[i + 1..], parse);
    CutJoin(items, i + 1);
  }

  /** Looking at one more entry keeps or drops just that entry. */
  lemma KeptStep(items: seq<Json>, i: nat)
    requires i < |items|
    ensures KeptEntries(items[..i + 1]) == KeptEntries(items[..i]) + Kept(items[i])
  {
    assert items[..i + 1][..i] == items[..i];
  }

  /** A failure among the kept entries of a prefix is the failure of the
      whole list. */
  lemma ShipFailureEndsList<T>(prefix: seq<Json>, rest: seq<Json>, parse: Json -> Outcome<T>)
    requires MapAll(KeptEntries(prefix), parse).Failure?
    ensures MapAll(KeptEntries(prefix + rest), parse) == MapAll(KeptEntries(prefix), parse)
  {
    KeptEntriesConcat(prefix, rest);
    MapAllFailedPrefix(KeptEntries(prefix), KeptEntries(rest), parse);
  }

  /** `(token as JArray)!.Select(parse)`: roadmaps and roadmap cards. A
      non-array gives a null source, which `Select` rejects; otherwise the
      elements are parsed in order until one throws. */
  function SelectArray<T>(t: Option<Json>, parse: Json -> Outcome<T>): (r: Outcome<seq<T>>)
    ensures !IsArray(t) ==> r == Failure(ArgumentNull)
    ensures IsArray(t) ==> ParsedInOrder(t.value.items, parse, r)
  {
    if IsArray(t) then MapAll(t.value.items, parse)
    else Failure(ArgumentNull)
  }
}
