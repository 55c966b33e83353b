/** The default-refId pass over an IoT SiteWise data-stream query.

    A query holds a list of asset queries, each with its own list of property
    queries, and a list of top-level property queries. Every property query
    that lacks a truthy `refId` is given a fresh one from the id generator
    `getId`; everything else is carried over. */
module AssetQuery {
  import opened JsValues

  /** The id generator `getId`, as the stream of the ids it returns: when the
      stream is at position `n`, the next call of `getId` yields `getId(n)`. */
  type IdStream = nat -> string

  /** A property query: its optional `refId` and its other fields
      (`propertyId` or `propertyAlias`, `resolution`, ...). */
  datatype PropertyQuery = PropertyQuery(refId: Option<string>, fields: Fields)

  /** An asset query: its property queries and its other fields (`assetId`, ...). */
  datatype AssetQuery = AssetQuery(fields: Fields, properties: seq<PropertyQuery>)

  /** Both lists are optional in the input type. */
  datatype DataStreamQuery = DataStreamQuery(
    assets: Option<seq<AssetQuery>>,
    properties: Option<seq<PropertyQuery>>)

  /** A result paired with the stream position of the next unused id. */
  datatype Filled<T> = Filled(value: T, next: nat)

  /** `refId` is truthy in the JavaScript sense: present and not the empty string. */
  predicate HasRefId(p: PropertyQuery)
  {
    p.refId.Some? && p.refId.value != ""
  }

  /** Number of property queries in `ps` that lack a truthy `refId`. */
  function MissingCount(ps: seq<PropertyQuery>): nat
  {
    if ps == [] then 0
    else (if HasRefId(ps[0]) then 0 else 1) + MissingCount(ps[1..])
  }

  /** The property queries of all assets, asset by asset, in list order. */
  function AssetProperties(assets: seq<AssetQuery>): seq<PropertyQuery>
  {
    if assets == [] then [] else assets[0].properties + AssetProperties(assets[1..])
  }

  function AssetsOf(q: DataStreamQuery): seq<AssetQuery>
  {
    q.assets.GetOr([])
  }

  function PropertiesOf(q: DataStreamQuery): seq<PropertyQuery>
  {
    q.properties.GetOr([])
  }

  /** Every property query of `q` in the order the pass visits them:
      the asset properties first, then the top-level properties. */
  function AllProperties(q: DataStreamQuery): seq<PropertyQuery>
  {
    AssetProperties(AssetsOf(q)) + PropertiesOf(q)
  }

  /** Reference description of the pass on a list visited in order, starting
      with the id stream at `next`: position `i` keeps its query when it has a
      truthy `refId`, and otherwise receives the id numbered by how many queries
      before it lacked one. */
  ghost predicate Assigned(ps: seq<PropertyQuery>, out: seq<PropertyQuery>, getId: IdStream, next: nat)
  {
    && |out| == |ps|
    && forall i :: 0 <= i < |ps| ==> out[i] == Kept(ps[i], getId, next + MissingCount(ps[..i]))
  }

  /** A property query after the fill, when the stream is at `n`: kept as it
      is when it has a truthy `refId`, given `getId(n)` otherwise. */
  function Kept(p: PropertyQuery, getId: IdStream, n: nat): PropertyQuery
  {
    if HasRefId(p) then p else p.(refId := Some(getId(n)))
  }

  /** The ids handed out by the stream are all non-empty strings (true of uuid v4). */
  ghost predicate NonEmptyIds(getId: IdStream)
  {
    forall k: nat :: getId(k) != ""
  }

  /** One property query filled with the stream at `next`: the query as `Kept`
      describes it, and the stream advanced past the id only if one was drawn. */
  function FillRefId(p: PropertyQuery, getId: IdStream, next: nat): Filled<PropertyQuery>
  {
    Filled(Kept(p, getId, next), if HasRefId(p) then next else next + 1)
  }

  /** A property list filled query by query, from the front of the list to
      the back, each query drawing from where the previous one left the stream. */
  function FillProperties(ps: seq<PropertyQuery>, getId: IdStream, next: nat): (r: Filled<seq<PropertyQuery>>)
    ensures Assigned(ps, r.value, getId, next)
    ensures r.next == next + MissingCount(ps)
    decreases |ps|
  {
    if ps == [] then Filled([], next)
    else
      var head := FillRefId(ps[0], getId, next);
      var tail := FillProperties(ps[1..], getId, head.next);
      assert [ps[0]][..0] == [];
      AssignedAppend([ps[0]], [head.value], ps[1..], tail.value, getId, next);
      assert [ps[0]] + ps[1..] == ps;
      Filled([head.value] + tail.value, tail.next)
  }

  /** An asset list filled asset by asset: every asset keeps its other fields
      and has its property list filled, drawing ids from where the previous
      asset left the stream. */
  function FillAssets(assets: seq<AssetQuery>, getId: IdStream, next: nat): (r: Filled<seq<AssetQuery>>)
    ensures |r.value| == |assets|
    ensures forall i :: 0 <= i < |assets| ==>
              r.value[i].fields == assets[i].fields
              && |r.value[i].properties| == |assets[i].properties|
    ensures Assigned(AssetProperties(assets), AssetProperties(r.value), getId, next)
    ensures r.next == next + MissingCount(AssetProperties(assets))
    decreases |assets|
  {
    if assets == [] then Filled([], next)
    else
      var props := FillProperties(assets[0].properties, getId, next);
      var rest := FillAssets(assets[1..], getId, props.next);
      var out := [AssetQuery(assets[0].fields, props.value)] + rest.value;
      assert out[1..] == rest.value;
      AssignedAppend(assets[0].properties, props.value, AssetProperties(assets[1..]), AssetProperties(rest.value), getId, next);
      MissingCountAppend(assets[0].properties, AssetProperties(assets[1..]));
      Filled(out, rest.next)
  }

  /** The whole pass. `assets` and `properties` default to empty lists; the
      asset properties draw their ids before the top-level properties do. */
  function AssignDefaultRefId(q: DataStreamQuery, getId: IdStream, next: nat): (r: Filled<DataStreamQuery>)
    ensures r.value.assets.Some? && r.value.properties.Some?
    ensures q.assets.None? ==> r.value.assets.value == []
    ensures q.properties.None? ==> r.value.properties.value == []
    ensures |AssetsOf(r.value)| == |AssetsOf(q)|
    ensures forall i :: 0 <= i < |AssetsOf(q)| ==>
              AssetsOf(r.value)[i].fields == AssetsOf(q)[i].fields
              && |AssetsOf(r.value)[i].properties| == |AssetsOf(q)[i].properties|
    ensures Assigned(PropertiesOf(q), PropertiesOf(r.value), getId,
                     next + MissingCount(AssetProperties(AssetsOf(q))))
    ensures Assigned(AllProperties(q), AllProperties(r.value), getId, next)
    ensures r.next == next + MissingCount(AllProperties(q))
  {
    var assets := FillAssets(AssetsOf(q), getId, next);
    var properties := FillProperties(PropertiesOf(q), getId, assets.next);
    var out := DataStreamQuery(Some(assets.value), Some(properties.value));
    assert AssetsOf(out) == assets.value && PropertiesOf(out) == properties.value;
    assert AllProperties(out) == AssetProperties(assets.value) + properties.value;
    AssignedAppend(AssetProperties(AssetsOf(q)), AssetProperties(assets.value),
                   PropertiesOf(q), properties.value, getId, next);
    MissingCountAppend(AssetProperties(AssetsOf(q)), PropertiesOf(q));
    Filled(out, properties.next)
  }

  // ---------------------------------------------------------------------------
  // Lemmas about the count of missing refIds

  lemma {:induction false} MissingCountAppend(a: seq<PropertyQuery>, b: seq<PropertyQuery>)
    ensures MissingCount(a + b) == MissingCount(a) + MissingCount(b)
    decreases |a|
  {
    if a == [] {
      assert a + b == b;
    } else {
      assert (a + b)[1..] == a[1..] + b;
      MissingCountAppend(a[1..], b);
    }
  }

  /** A list needs no ids exactly when every query in it has a truthy `refId`. */
  lemma {:induction false} MissingCountZero(ps: seq<PropertyQuery>)
    ensures MissingCount(ps) == 0 <==> forall i :: 0 <= i < |ps| ==> HasRefId(ps[i])
    decreases |ps|
  {
    if ps != [] {
      var rest := ps[1..];
      MissingCountZero(rest);
      if MissingCount(ps) == 0 {
        forall i | 0 <= i < |ps| ensures HasRefId(ps[i]) {
          if i > 0 { assert ps[i] == rest[i - 1]; }
        }
      }
      if forall i :: 0 <= i < |ps| ==> HasRefId(ps[i]) {
        forall i | 0 <= i < |rest| ensures HasRefId(rest[i]) {
          assert rest[i] == ps[i + 1];
        }
      }
    }
  }

  /** The reference description composes over concatenation: the second list
      starts drawing ids where the first stopped. */
  lemma AssignedAppend(a: seq<PropertyQuery>, a': seq<PropertyQuery>,
                       b: seq<PropertyQuery>, b': seq<PropertyQuery>,
                       getId: IdStream, next: nat)
    requires Assigned(a, a', getId, next)
    requires Assigned(b, b', getId, next + MissingCount(a))
    ensures Assigned(a + b, a' + b', getId, next)
  {
    var ps, out := a + b, a' + b';
    forall i | 0 <= i < |ps|
      ensures out[i] == Kept(ps[i], getId, next + MissingCount(ps[..i]))
    {
      if i < |a| {
        assert ps[i] == a[i] && out[i] == a'[i];
        assert ps[..i] == a[..i];
      } else {
        var j := i - |a|;
        assert ps[i] == b[j] && out[i] == b'[j];
        assert ps[..i] == a + b[..j];
        MissingCountAppend(a, b[..j]);
      }
    }
  }

  // ---------------------------------------------------------------------------
  // Properties of the pass

  /** Every property query of the output has a truthy `refId` when the
      generator never returns the empty string. */
  lemma AllRefIdsAssigned(q: DataStreamQuery, getId: IdStream, next: nat)
    requires NonEmptyIds(getId)
    ensures forall i :: 0 <= i < |AllProperties(AssignDefaultRefId(q, getId, next).value)| ==>
              HasRefId(AllProperties(AssignDefaultRefId(q, getId, next).value)[i])
    ensures MissingCount(AllProperties(AssignDefaultRefId(q, getId, next).value)) == 0
  {
    var out := AllProperties(AssignDefaultRefId(q, getId, next).value);
    var ps := AllProperties(q);
    forall i | 0 <= i < |out| ensures HasRefId(out[i]) {
      assert getId(next + MissingCount(ps[..i])) != "";
    }
    MissingCountZero(out);
  }

  /** A list in which no query lacks a `refId` passes through the fill unchanged. */
  lemma FillPropertiesComplete(ps: seq<PropertyQuery>, getId: IdStream, next: nat)
    requires MissingCount(ps) == 0
    ensures FillProperties(ps, getId, next) == Filled(ps, next)
  {
    MissingCountZero(ps);
    var r := FillProperties(ps, getId, next).value;
    assert r == ps;
  }

  /** A list of assets none of whose properties lacks a `refId` passes through unchanged. */
  lemma {:induction false} FillAssetsComplete(assets: seq<AssetQuery>, getId: IdStream, next: nat)
    requires MissingCount(AssetProperties(assets)) == 0
    ensures FillAssets(assets, getId, next) == Filled(assets, next)
    decreases |assets|
  {
    if assets != [] {
      MissingCountAppend(assets[0].properties, AssetProperties(assets[1..]));
      FillPropertiesComplete(assets[0].properties, getId, next);
      FillAssetsComplete(assets[1..], getId, next);
      assert [AssetQuery(assets[0].fields, assets[0].properties)] + assets[1..] == assets;
    }
  }

  /** A query in which every property query already has a truthy `refId`
      draws no id and comes back with both lists present and unchanged. */
  lemma AssignDefaultRefIdComplete(q: DataStreamQuery, getId: IdStream, next: nat)
    requires MissingCount(AllProperties(q)) == 0
    ensures AssignDefaultRefId(q, getId, next)
            == Filled(DataStreamQuery(Some(AssetsOf(q)), Some(PropertiesOf(q))), next)
  {
    MissingCountAppend(AssetProperties(AssetsOf(q)), PropertiesOf(q));
    FillAssetsComplete(AssetsOf(q), getId, next);
    FillPropertiesComplete(PropertiesOf(q), getId, next);
  }

  /** Idempotence: running the pass on its own output, with any generator,
      draws no id and returns an equal query. */
  lemma AssignDefaultRefIdIdempotent(q: DataStreamQuery, getId: IdStream, next: nat,
                                     getId': IdStream, next': nat)
    requires NonEmptyIds(getId)
    ensures AssignDefaultRefId(AssignDefaultRefId(q, getId, next).value, getId', next')
            == Filled(AssignDefaultRefId(q, getId, next).value, next')
  {
    var out := AssignDefaultRefId(q, getId, next).value;
    AllRefIdsAssigned(q, getId, next);
    AssignDefaultRefIdComplete(out, getId', next');
  }
}
