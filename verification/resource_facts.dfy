/** Properties of the resource decoder: what `to_model` keeps, ignores,
    records and resolves.
 */
module ResourceFacts {
  import opened JsonData
  import opened Outcomes
  import opened Resources

  /** A payload carrying only `id` and a known `type` decodes to that
      variant with nothing set. */
  lemma MinimalPayload(k: Kind, id: Json, included: Json, client: Option<ClientKind>, parse: string -> Option<int>)
    ensures Decode(JObj(map["id" := id, "type" := JStr(Tag(k))]), included, client, parse) == Ok(Bare(k, id, client))
  {
    var data := JObj(map["id" := id, "type" := JStr(Tag(k))]);
    MinimalBuild(k, id, client, parse);
    assert !ResolutionRuns(data, k, included);
    NoResolutionWithoutIncluded(data, included, client, parse);
  }

  lemma MinimalBuild(k: Kind, id: Json, client: Option<ClientKind>, parse: string -> Option<int>)
    ensures var data := JObj(map["id" := id, "type" := JStr(Tag(k))]);
            && RelationshipsOf(data) == map[]
            && Build(data, client, parse) == Ok(Bare(k, id, client))
  {
    var data := JObj(map["id" := id, "type" := JStr(Tag(k))]);
    assert Get(data, "type") == JStr(Tag(k));
    assert AttributesOf(data) == map[];
    assert RelationshipsOf(data) == map[];
  }

  /** The tag of a decoded model is the variant's own tag, and `to_model`
      fails with "type '<t>' is unknown." exactly for the tags it has no
      arm for. */
  lemma {:induction false} UnknownTypeExactly(data: Json, included: Json, client: Option<ClientKind>, parse: string -> Option<int>)
    requires data.JObj? && Get(data, "type") != JNull
    ensures (Decode(data, included, client, parse) == Fail(UnknownType(Get(data, "type")))) <==>
            !(Get(data, "type").JStr? && Get(data, "type").s in {"user", "label", "calendar", "event", "activity"})
  {
    var r := Decode(data, included, client, parse);
    var tag := Get(data, "type");
    if KindOf(tag).Some? {
      var m := Build(data, client, parse);
      if m.Ok? {
        if ResolutionRuns(data, m.value.kind, included) {
          ResolveNeverUnknownOwnTag(m.value, included.items, parse, tag);
        }
      } else {
        BuildFailureOfKnownTag(data, client, parse);
      }
    }
  }

  /** Once the tag is known, `Build` can only fail on a time value or a
      malformed relationship. */
  lemma BuildFailureOfKnownTag(data: Json, client: Option<ClientKind>, parse: string -> Option<int>)
    requires data.JObj? && KindOf(Get(data, "type")).Some?
    requires Build(data, client, parse).Fail?
    ensures Build(data, client, parse).failure in {InvalidTime, NoMethod("[]")}
  {
  }

  /** Resolution fails with an unknown-type failure only for an included
      item whose tag is unknown, never for the tag of a decoded model. */
  lemma ResolveNeverUnknownOwnTag(m: Model, items: seq<Json>, parse: string -> Option<int>, tag: Json)
    requires tag == JStr(Tag(m.kind))
    ensures Resolve(m, items, parse) != Fail(UnknownType(tag))
  {
    var ix := Index(items, m.client, parse);
    if ix.Fail? {
      IndexFailure(items, m.client, parse);
    }
  }

  /** A failing index fails with the failure of an item whose decode
      fails. */
  lemma {:induction false} IndexWithFailure(items: seq<Json>, build: Json -> Result<Model>)
    requires IndexWith(items, build).Fail?
    ensures exists i :: 0 <= i < |items| && build(items[i]) == Fail(IndexWith(items, build).failure)
    decreases |items|
  {
    var n := |items|;
    var front := items[..n - 1];
    if IndexWith(front, build).Fail? {
      IndexWithFailure(front, build);
      var i :| 0 <= i < n - 1 && build(front[i]) == Fail(IndexWith(front, build).failure);
      assert front[i] == items[i];
    }
  }

  /** One step of the index: the last item is decoded after all earlier ones
      and stored over any earlier entry with the same key. */
  lemma IndexWithStep(items: seq<Json>, build: Json -> Result<Model>)
    requires |items| > 0
    ensures IndexWith(items, build).Ok? <==>
              IndexWith(items[..|items| - 1], build).Ok? && build(items[|items| - 1]).Ok?
    ensures IndexWith(items, build).Ok? ==>
              IndexWith(items, build).value ==
                IndexWith(items[..|items| - 1], build).value[IndexKey(build(items[|items| - 1]).value) := build(items[|items| - 1]).value]
  {
  }

  /** The index succeeds exactly when every item decodes. */
  lemma {:induction false} IndexWithOk(items: seq<Json>, build: Json -> Result<Model>)
    ensures IndexWith(items, build).Ok? <==> forall i :: 0 <= i < |items| ==> build(items[i]).Ok?
    decreases |items|
  {
    if |items| > 0 {
      var front := items[..|items| - 1];
      IndexWithStep(items, build);
      IndexWithOk(front, build);
      assert forall i :: 0 <= i < |front| ==> front[i] == items[i];
    }
  }

  /** Every item of a successful index is stored under its key. */
  lemma {:induction false} IndexWithKeys(items: seq<Json>, build: Json -> Result<Model>, i: int)
    requires IndexWith(items, build).Ok?
    requires 0 <= i < |items|
    ensures build(items[i]).Ok?
    ensures IndexKey(build(items[i]).value) in IndexWith(items, build).value
    decreases |items|
  {
    var front := items[..|items| - 1];
    IndexWithStep(items, build);
    if i < |items| - 1 {
      assert front[i] == items[i];
      IndexWithKeys(front, build, i);
    }
  }

  /** An item no later item shares a key with is the one the index holds. */
  lemma {:induction false} IndexWithLastWins(items: seq<Json>, build: Json -> Result<Model>, i: int)
    requires IndexWith(items, build).Ok?
    requires 0 <= i < |items|
    requires build(items[i]).Ok?
    requires forall j :: i < j < |items| ==>
               build(items[j]).Ok? && IndexKey(build(items[j]).value) != IndexKey(build(items[i]).value)
    ensures var item := build(items[i]).value;
            var index := IndexWith(items, build).value;
            IndexKey(item) in index && index[IndexKey(item)] == item
    decreases |items|
  {
    var front := items[..|items| - 1];
    IndexWithStep(items, build);
    if i < |items| - 1 {
      assert forall j :: 0 <= j < |front| ==> front[j] == items[j];
      IndexWithLastWins(front, build, i);
    }
  }

  /** The failure of the index is the failure of some included item. */
  lemma IndexFailure(items: seq<Json>, client: Option<ClientKind>, parse: string -> Option<int>)
    requires Index(items, client, parse).Fail?
    ensures exists i :: 0 <= i < |items| && Build(items[i], client, parse) == Fail(Index(items, client, parse).failure)
  {
    IndexWithFailure(items, Builder(client, parse));
  }

  /** The index builds exactly when every included item decodes. */
  lemma IndexOkIffAllBuild(items: seq<Json>, client: Option<ClientKind>, parse: string -> Option<int>)
    ensures Index(items, client, parse).Ok? <==> AllBuild(items, client, parse)
  {
    IndexWithOk(items, Builder(client, parse));
  }

  /** Attribute keys the variant has no setter for are ignored; declared
      keys are stored verbatim, except `TIME_FIELDS`, which are parsed. */
  lemma AttributesCopied(data: Json, client: Option<ClientKind>, parse: string -> Option<int>)
    requires Build(data, client, parse).Ok?
    ensures var m := Build(data, client, parse).value;
            var attrs := AttributesOf(data);
            && (forall key :: key in m.slots <==> key in attrs && key in Setters(m.kind))
            && (forall key | key in m.slots && key !in TimeFields(m.kind) :: m.slots[key] == Raw(attrs[key]))
            && (forall key | key in m.slots && key in TimeFields(m.kind) ::
                  attrs[key].JStr? && m.slots[key] == At(parse(attrs[key].s).value) && parse(attrs[key].s).Some?)
  {
    var k := KindOf(Get(data, "type")).value;
    var attrs := AttributesOf(data);
    var slots := SetAttributes(k, attrs, parse);
    assert slots.Ok?;
  }

  /** Only declared relationships whose entry has a truthy `data` are
      recorded, with `data` stored unchanged; a variant without
      relationships, or a payload without any, records nothing. */
  lemma RecordContents(k: Kind, rels: map<string, Json>)
    requires Record(k, rels).Ok?
    ensures |RelationshipKeys(k)| == 0 || |rels| == 0 ==> Record(k, rels).value.None?
    ensures Record(k, rels).value.Some? ==>
              forall key | key in Record(k, rels).value.value ::
                key in RelationshipKeys(k) && key in rels && rels[key].JObj?
                && Record(k, rels).value.value[key] == Get(rels[key], "data")
                && Truthy(Record(k, rels).value.value[key])
    ensures forall key | key in RelationshipKeys(k) && key in rels && rels[key].JObj? && Truthy(Get(rels[key], "data")) ::
              Record(k, rels).value.Some? && key in Record(k, rels).value.value
  {
    if |rels| > 0 && |RelationshipKeys(k)| > 0 {
      var recorded := map key | key in rels && key in RelationshipKeys(k)
                                && rels[key].JObj? && Truthy(Get(rels[key], "data"))
                        :: Get(rels[key], "data");
      forall key | key in RelationshipKeys(k) && key in rels && rels[key].JObj? && Truthy(Get(rels[key], "data"))
        ensures Record(k, rels).value.Some? && key in Record(k, rels).value.value
      {
        assert key in recorded;
        assert recorded != map[];
      }
    }
  }

  /** The recorded relationships of a decoded model are those `Record` keeps. */
  lemma BuildRecords(data: Json, client: Option<ClientKind>, parse: string -> Option<int>)
    requires Build(data, client, parse).Ok?
    ensures Record(Build(data, client, parse).value.kind, RelationshipsOf(data)).Ok?
    ensures Build(data, client, parse).value.relationships ==
              Record(Build(data, client, parse).value.kind, RelationshipsOf(data)).value
  {
  }

  /** Missing `attributes` and `relationships` default to empty: nothing is
      set and no relationship is recorded. */
  lemma MissingSectionsDefaultToEmpty(data: Json, client: Option<ClientKind>, parse: string -> Option<int>)
    requires data.JObj? && "attributes" !in data.fields && "relationships" !in data.fields
    requires Build(data, client, parse).Ok?
    ensures Build(data, client, parse).value.slots == map[]
    ensures Build(data, client, parse).value.relationships.None?
  {
    assert AttributesOf(data) == map[];
    assert RelationshipsOf(data) == map[];
  }

  /** An included item is decoded without its own `included`: its decode is
      the one-level `Build`, and no accessor of it is resolved. */
  lemma IncludedItemsAreFlat(data: Json, client: Option<ClientKind>, parse: string -> Option<int>)
    ensures Decode(data, JNull, client, parse) == Build(data, client, parse)
  {
  }

  /** Without a non-empty `included` array (or without recorded
      relationships to resolve), decoding resolves nothing. */
  lemma NoResolutionWithoutIncluded(data: Json, included: Json, client: Option<ClientKind>, parse: string -> Option<int>)
    requires Build(data, client, parse).Ok?
    requires !ResolutionRuns(data, Build(data, client, parse).value.kind, included)
    ensures Decode(data, included, client, parse) == Build(data, client, parse)
    ensures Flat(Decode(data, included, client, parse).value)
  {
  }

  /** Resolution leaves the raw relationship references, and every instance
      variable that is not a relationship accessor, unchanged. */
  lemma ResolutionKeepsRawReferences(data: Json, included: Json, client: Option<ClientKind>, parse: string -> Option<int>)
    requires Decode(data, included, client, parse).Ok?
    ensures var m := Decode(data, included, client, parse).value;
            var b := Build(data, client, parse).value;
            && m.relationships == b.relationships
            && (forall key | key !in RelationshipKeys(m.kind) :: (key in m.slots <==> key in b.slots))
            && (forall key | key in b.slots && key !in RelationshipKeys(m.kind) :: m.slots[key] == b.slots[key])
  {
    var b := Build(data, client, parse).value;
    if ResolutionRuns(data, b.kind, included) {
      var index := Index(included.items, client, parse).value;
      var resolved := ResolveAll(b.relationships.value, index).value;
      RecordedKeysDeclared(data, client, parse);
      assert resolved.Keys <= b.relationships.value.Keys;
    }
  }

  lemma RecordedKeysDeclared(data: Json, client: Option<ClientKind>, parse: string -> Option<int>)
    requires Build(data, client, parse).Ok?
    ensures var b := Build(data, client, parse).value;
            b.relationships.Some? ==> forall key | key in b.relationships.value :: key in RelationshipKeys(b.kind)
  {
    BuildRecords(data, client, parse);
    RecordContents(Build(data, client, parse).value.kind, RelationshipsOf(data));
  }

  /** How each recorded reference is resolved against the included index:
      a list becomes the in-order list of its matches (possibly empty), an
      object with a match becomes that model, and an object without one
      leaves the accessor as it was. */
  lemma ResolutionOfReferences(data: Json, included: Json, client: Option<ClientKind>, parse: string -> Option<int>, key: string)
    requires Decode(data, included, client, parse).Ok?
    requires ResolutionRuns(data, Build(data, client, parse).value.kind, included)
    ensures var b := Build(data, client, parse).value;
            var m := Decode(data, included, client, parse).value;
            var index := Index(included.items, client, parse).value;
            && b.relationships.Some?
            && (key in b.relationships.value ==>
                  var ref := b.relationships.value[key];
                  && (ref.JArr? ==> (forall i :: 0 <= i < |ref.items| ==> ref.items[i].JObj?)
                                    && m.slots[key] == Many(Matches(ref.items, index)))
                  && (ref.JObj? && KeyOf(ref) in index ==> m.slots[key] == One(index[KeyOf(ref)]))
                  && (!ref.JArr? && !(ref.JObj? && KeyOf(ref) in index) ==>
                        (key in m.slots <==> key in b.slots) && (key in b.slots ==> m.slots[key] == b.slots[key])))
  {
    var b := Build(data, client, parse).value;
    var index := Index(included.items, client, parse).value;
    assert b.relationships.Some?;
    var resolved := ResolveAll(b.relationships.value, index);
    assert resolved.Ok?;
  }

  /** Resolution happens only when every included item decodes: an
      included resource of an unknown type fails the whole decode. */
  lemma {:induction false} IncludedUnknownTypeFails(data: Json, included: Json, client: Option<ClientKind>, parse: string -> Option<int>, i: int)
    requires Build(data, client, parse).Ok?
    requires ResolutionRuns(data, Build(data, client, parse).value.kind, included)
    requires 0 <= i < |included.items|
    requires included.items[i].JObj? && Get(included.items[i], "type") != JNull
    requires KindOf(Get(included.items[i], "type")).None?
    ensures Decode(data, included, client, parse).Fail?
  {
    if Index(included.items, client, parse).Ok? {
      EveryIncludedItemIndexed(included.items, client, parse, i);
    }
  }

  /** When several included items share a (type, id), the last one wins. */
  lemma LaterDuplicateWins(items: seq<Json>, client: Option<ClientKind>, parse: string -> Option<int>, i: int)
    requires Index(items, client, parse).Ok?
    requires 0 <= i < |items|
    requires AllBuild(items, client, parse)
    requires forall j :: i < j < |items| ==>
               IndexKey(Build(items[j], client, parse).value) != IndexKey(Build(items[i], client, parse).value)
    ensures Build(items[i], client, parse).Ok?
    ensures var item := Build(items[i], client, parse).value;
            var index := Index(items, client, parse).value;
            IndexKey(item) in index && index[IndexKey(item)] == item
  {
    IndexWithLastWins(items, Builder(client, parse), i);
  }

  /** Every included item is reachable in the index under its key. */
  lemma EveryIncludedItemIndexed(items: seq<Json>, client: Option<ClientKind>, parse: string -> Option<int>, i: int)
    requires Index(items, client, parse).Ok?
    requires 0 <= i < |items|
    ensures Build(items[i], client, parse).Ok?
    ensures IndexKey(Build(items[i], client, parse).value) in Index(items, client, parse).value
  {
    IndexWithKeys(items, Builder(client, parse), i);
  }

  /** When every reference of a list has a match, the list resolves to the
      matches one for one, in order. */
  lemma {:induction false} AllReferencesMatch(refs: seq<Json>, index: map<Key, Model>)
    requires forall i :: 0 <= i < |refs| ==> refs[i].JObj? && KeyOf(refs[i]) in index
    ensures |Matches(refs, index)| == |refs|
    ensures forall i :: 0 <= i < |refs| ==> Matches(refs, index)[i] == index[KeyOf(refs[i])]
    decreases |refs|
  {
    if |refs| > 0 {
      var n := |refs|;
      assert forall i :: 0 <= i < n - 1 ==> refs[..n - 1][i] == refs[i];
      AllReferencesMatch(refs[..n - 1], index);
    }
  }

  /** A concatenation of reference objects holds only reference objects. */
  lemma ObjectsConcat(front: seq<Json>, back: seq<Json>)
    requires forall i :: 0 <= i < |front| ==> front[i].JObj?
    requires forall i :: 0 <= i < |back| ==> back[i].JObj?
    ensures forall i :: 0 <= i < |front + back| ==> (front + back)[i].JObj?
  {
    forall i | 0 <= i < |front + back| ensures (front + back)[i].JObj? {
      if i < |front| { assert (front + back)[i] == front[i]; } else { assert (front + back)[i] == back[i - |front|]; }
    }
  }

  /** Matching distributes over concatenation of reference lists. */
  lemma {:induction false} MatchesAppend(front: seq<Json>, back: seq<Json>, index: map<Key, Model>)
    requires forall i :: 0 <= i < |front| ==> front[i].JObj?
    requires forall i :: 0 <= i < |back| ==> back[i].JObj?
    ensures forall i :: 0 <= i < |front + back| ==> (front + back)[i].JObj?
    ensures Matches(front + back, index) == Matches(front, index) + Matches(back, index)
    decreases |back|
  {
    ObjectsConcat(front, back);
    if |back| == 0 {
      assert front + back == front;
    } else {
      var init := back[..|back| - 1];
      MatchesAppend(front, init, index);
      var all := front + back;
      assert all[..|all| - 1] == front + init;
      assert all[|all| - 1] == back[|back| - 1];
    }
  }

  /** A single reference matches exactly when its key is indexed. */
  lemma MatchesOne(ref: Json, index: map<Key, Model>)
    requires ref.JObj?
    ensures Matches([ref], index) == if KeyOf(ref) in index then [index[KeyOf(ref)]] else []
  {
    assert [ref][..0] == [];
  }

  /** Every reference whose key is indexed contributes its item, and every
      matched item comes from some indexed reference, whatever else the
      list holds. */
  lemma {:induction false} MatchedReferenceKept(refs: seq<Json>, index: map<Key, Model>, i: int)
    requires forall j :: 0 <= j < |refs| ==> refs[j].JObj?
    requires 0 <= i < |refs| && KeyOf(refs[i]) in index
    ensures index[KeyOf(refs[i])] in Matches(refs, index)
  {
    var front := refs[..i];
    var rest := refs[i..];
    assert refs == front + rest;
    assert rest == [refs[i]] + refs[i + 1..];
    MatchesAppend(front, rest, index);
    MatchesAppend([refs[i]], refs[i + 1..], index);
    MatchesOne(refs[i], index);
  }

  /** Matching invents nothing: each matched item is the indexed item of
      one of the references. */
  lemma {:induction false} MatchesComeFromReferences(refs: seq<Json>, index: map<Key, Model>)
    requires forall j :: 0 <= j < |refs| ==> refs[j].JObj?
    ensures forall m :: m in Matches(refs, index) ==>
              exists j :: 0 <= j < |refs| && KeyOf(refs[j]) in index && index[KeyOf(refs[j])] == m
    decreases |refs|
  {
    if |refs| > 0 {
      var n := |refs|;
      var front := refs[..n - 1];
      MatchesComeFromReferences(front, index);
      forall m | m in Matches(refs, index)
        ensures exists j :: 0 <= j < n && KeyOf(refs[j]) in index && index[KeyOf(refs[j])] == m
      {
        if m in Matches(front, index) {
          var j :| 0 <= j < n - 1 && KeyOf(front[j]) in index && index[KeyOf(front[j])] == m;
          assert front[j] == refs[j];
        } else {
          assert KeyOf(refs[n - 1]) in index && index[KeyOf(refs[n - 1])] == m;
        }
      }
    }
  }

  /** References without a match are dropped; when none matches the
      accessor is still assigned, to the empty list. */
  lemma {:induction false} NoReferenceMatches(refs: seq<Json>, index: map<Key, Model>)
    requires forall i :: 0 <= i < |refs| ==> refs[i].JObj? && KeyOf(refs[i]) !in index
    ensures Matches(refs, index) == []
    decreases |refs|
  {
    if |refs| > 0 {
      var n := |refs|;
      assert forall i :: 0 <= i < n - 1 ==> refs[..n - 1][i] == refs[i];
      NoReferenceMatches(refs[..n - 1], index);
    }
  }
}
