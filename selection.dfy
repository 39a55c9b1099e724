/** `fetch_bills`: per bill type, fetch and assemble its rows, tag them
  * with the type's label and keep the first row of every distinct bill
  * number as that bill's feature. */
module Selection {
  import opened Wrappers
  import opened Records
  import opened Pagination
  import opened Assembly

  predicate Distinct<K(==)>(s: seq<K>)
  {
    forall i, j :: 0 <= i < j < |s| ==> s[i] != s[j]
  }

  /** pandas `Series.unique()`: each value once, in order of first
    * appearance. */
  function Unique<K(==, !new)>(s: seq<K>): (u: seq<K>)
    ensures forall x :: x in u <==> x in s
    ensures Distinct(u)
  {
    if s == [] then []
    else
      var u := Unique(s[..|s| - 1]);
      assert forall x :: x in s <==> x in s[..|s| - 1] || x == s[|s| - 1];
      if s[|s| - 1] in u then u else u + [s[|s| - 1]]
  }

  /** The position of the first `x` in `s`. */
  function FirstIndex<K(==)>(s: seq<K>, x: K): (k: nat)
    requires x in s
    ensures k < |s| && s[k] == x
    ensures forall j :: 0 <= j < k ==> s[j] != x
  {
    if s[0] == x then 0 else 1 + FirstIndex(s[1..], x)
  }

  /** Adding an element at the end does not move an earlier first
    * occurrence. */
  lemma FirstIndexPrefix<K>(s: seq<K>, x: K)
    requires |s| > 0 && x in s[..|s| - 1]
    ensures FirstIndex(s, x) == FirstIndex(s[..|s| - 1], x)
  {
    var p := s[..|s| - 1];
    var k1, k2 := FirstIndex(s, x), FirstIndex(p, x);
    assert s[k2] == x;
    if k1 < |p| {
      assert p[k1] == x;
    }
  }

  /** `unique()` lists the values in the order they first appear. */
  lemma {:induction false} UniqueInFirstAppearanceOrder<K(!new)>(s: seq<K>)
    ensures forall i, j :: 0 <= i < j < |Unique(s)| ==>
              FirstIndex(s, Unique(s)[i]) < FirstIndex(s, Unique(s)[j])
  {
    if s != [] {
      var p := s[..|s| - 1];
      var last := s[|s| - 1];
      var u := Unique(s);
      var up := Unique(p);
      UniqueInFirstAppearanceOrder(p);
      forall i, j | 0 <= i < j < |u|
        ensures FirstIndex(s, u[i]) < FirstIndex(s, u[j])
      {
        assert u[i] == up[i] && u[i] in p;
        FirstIndexPrefix(s, u[i]);
        if j < |up| {
          assert u[j] == up[j];
          FirstIndexPrefix(s, u[j]);
        } else {
          assert u[j] == last && last !in p;
          assert FirstIndex(s, u[i]) < |p|;
          assert FirstIndex(s, last) == |p|;
        }
      }
    }
  }

  /** `df[df[key] == k]`: the rows whose key is `k`, in order. */
  function RowsWith<T, K(==)>(rows: seq<T>, keys: seq<K>, k: K): seq<T>
    requires |rows| == |keys|
  {
    if rows == [] then []
    else (if keys[0] == k then [rows[0]] else []) + RowsWith(rows[1..], keys[1..], k)
  }

  /** The first row of the filtered frame is the first row with that key. */
  lemma {:induction false} RowsWithHead<T, K>(rows: seq<T>, keys: seq<K>, k: K)
    requires |rows| == |keys| && k in keys
    ensures |RowsWith(rows, keys, k)| > 0
    ensures RowsWith(rows, keys, k)[0] == rows[FirstIndex(keys, k)]
  {
    if keys[0] != k {
      assert k in keys[1..] by {
        var j := FirstIndex(keys, k);
        assert keys[1..][j - 1] == k;
      }
      RowsWithHead(rows[1..], keys[1..], k);
    }
  }

  /** The first row of every distinct key, in first-appearance order. */
  function FirstPerKey<T, K(==, !new)>(rows: seq<T>, keys: seq<K>): (r: seq<T>)
    requires |rows| == |keys|
    ensures |r| == |Unique(keys)|
    ensures forall i :: 0 <= i < |r| ==> r[i] in rows
    ensures forall i :: 0 <= i < |r| ==>
              exists j :: 0 <= j < |rows| && r[i] == rows[j] && keys[j] == Unique(keys)[i] &&
                forall j' :: 0 <= j' < j ==> keys[j'] != Unique(keys)[i]
  {
    var u := Unique(keys);
    seq(|u|, i requires 0 <= i < |u| => rows[FirstIndex(keys, u[i])])
  }

  predicate Enriched(rows: seq<TypedRow>)
  {
    forall r :: r in rows ==> r.row.package.Some?
  }

  /** The `bill_number` column. */
  function BillNumbers(rows: seq<TypedRow>): (ks: seq<string>)
    requires Enriched(rows)
    ensures |ks| == |rows|
    ensures forall i :: 0 <= i < |rows| ==> ks[i] == rows[i].row.package.value.billNumber
  {
    seq(|rows|, i requires 0 <= i < |rows| => rows[i].row.package.value.billNumber)
  }

  /** The features of one bill type: one per distinct bill number. */
  function BillFeatures(rows: seq<TypedRow>): seq<TypedRow>
    requires Enriched(rows)
  {
    FirstPerKey(rows, BillNumbers(rows))
  }

  /** One feature per distinct bill number, in first-appearance order, each
    * the first row carrying that number. */
  lemma BillFeaturesSpec(rows: seq<TypedRow>)
    requires Enriched(rows)
    ensures Enriched(BillFeatures(rows))
    ensures BillNumbers(BillFeatures(rows)) == Unique(BillNumbers(rows))
    ensures Distinct(BillNumbers(BillFeatures(rows)))
    ensures forall i :: 0 <= i < |rows| ==> BillNumbers(rows)[i] in BillNumbers(BillFeatures(rows))
    ensures forall i :: 0 <= i < |BillFeatures(rows)| ==>
              BillFeatures(rows)[i] == rows[FirstIndex(BillNumbers(rows), BillNumbers(BillFeatures(rows))[i])]
    ensures forall i, j :: 0 <= i < j < |BillFeatures(rows)| ==>
              FirstIndex(BillNumbers(rows), BillNumbers(BillFeatures(rows))[i])
              < FirstIndex(BillNumbers(rows), BillNumbers(BillFeatures(rows))[j])
  {
    var ks := BillNumbers(rows);
    var fs := BillFeatures(rows);
    var u := Unique(ks);
    assert Enriched(fs);
    assert forall i :: 0 <= i < |fs| ==> BillNumbers(fs)[i] == u[i];
    assert BillNumbers(fs) == u;
    forall i | 0 <= i < |rows|
      ensures ks[i] in u
    {
      assert ks[i] in ks;
    }
    UniqueInFirstAppearanceOrder(ks);
  }

  /** `collect_df['bill_type'] = bill_desc`. */
  function Tag(rows: seq<SponsorRow>, desc: string): seq<TypedRow>
  {
    seq(|rows|, i requires 0 <= i < |rows| => TypedRow(rows[i], desc))
  }

  /** The assembled rows of one bill type, or why its run stopped. */
  function TypeRows(api: Api, apiKey: string, t: BillType): Result<seq<SponsorRow>, FetchError>
  {
    match Collection(PagesFor(api, t.code))
    case Failure(e) => Failure(e)
    case Success(c) => CollectionRows(api, apiKey, c)
  }

  lemma TypeRowsEnriched(api: Api, apiKey: string, t: BillType)
    requires TypeRows(api, apiKey, t).Success?
    ensures Enriched(Tag(TypeRows(api, apiKey, t).value, t.desc))
  {
    var c := Collection(PagesFor(api, t.code));
    CollectionRowsEnriched(api, apiKey, c.value);
  }

  /** `fetch_bills`'s two lists: the row sets and the features. */
  datatype Fetched = Fetched(frames: seq<seq<TypedRow>>, features: seq<TypedRow>)

  /** The result after the first `n` bill types. */
  function FetchUpTo(api: Api, apiKey: string, types: seq<BillType>, n: nat): Result<Fetched, FetchError>
    requires n <= |types|
  {
    if n == 0 then Success(Fetched([], []))
    else match FetchUpTo(api, apiKey, types, n - 1)
      case Failure(e) => Failure(e)
      case Success(f) =>
        match TypeRows(api, apiKey, types[n - 1])
        case Failure(e) => Failure(e)
        case Success(rows) =>
          if rows == [] then Success(f)
          else
            TypeRowsEnriched(api, apiKey, types[n - 1]);
            var typed := Tag(rows, types[n - 1].desc);
            Success(Fetched(f.frames + [typed], f.features + BillFeatures(typed)))
  }

  /** The features of `fs` whose bill number is not in `billIds`. */
  function Unseen(fs: seq<TypedRow>, billIds: seq<string>): (r: seq<TypedRow>)
    requires Enriched(fs)
    ensures Enriched(r)
  {
    if fs == [] then []
    else
      var last := fs[|fs| - 1];
      Unseen(fs[..|fs| - 1], billIds)
      + (if last.row.package.value.billNumber !in billIds then [last] else [])
  }

  /** `Unseen` keeps exactly the features whose bill number is not in
    * `billIds`. */
  lemma {:induction false} UnseenKeeps(fs: seq<TypedRow>, billIds: seq<string>)
    requires Enriched(fs)
    ensures forall x :: x in Unseen(fs, billIds) ==> x in fs && x.row.package.value.billNumber !in billIds
    ensures forall i :: 0 <= i < |fs| && fs[i].row.package.value.billNumber !in billIds ==>
              fs[i] in Unseen(fs, billIds)
  {
    if fs != [] {
      var p := fs[..|fs| - 1];
      UnseenKeeps(p, billIds);
      forall i | 0 <= i < |fs| - 1
        ensures fs[i] == p[i]
      {
      }
    }
  }

  /** With no bill number seen yet, nothing is filtered out. */
  lemma {:induction false} UnseenWhenNoneSeen(fs: seq<TypedRow>, billIds: seq<string>)
    requires Enriched(fs) && billIds == []
    ensures Unseen(fs, billIds) == fs
  {
    if fs != [] {
      UnseenWhenNoneSeen(fs[..|fs| - 1], billIds);
      assert fs[..|fs| - 1] + [fs[|fs| - 1]] == fs;
    }
  }

  /** The inner loop of `fetch_bills`: for every distinct bill number of
    * the frame not in `billIds`, append the first row with that number. */
  method AppendFeatures(billFts: seq<TypedRow>, typed: seq<TypedRow>, billIds: seq<string>)
    returns (r: seq<TypedRow>)
    requires Enriched(typed)
    ensures r == billFts + Unseen(BillFeatures(typed), billIds)
  {
    var numbers := BillNumbers(typed);
    var unique := Unique(numbers);
    ghost var fs := BillFeatures(typed);
    r := billFts;
    for k := 0 to |unique|
      invariant r == billFts + Unseen(fs[..k], billIds)
    {
      var billNumber := unique[k];
      BillFeatureAt(typed, k);
      UnseenSnoc(fs, k, billIds);
      if billNumber !in billIds {
        var bills := RowsWith(typed, numbers, billNumber);
        RowsWithHead(typed, numbers, billNumber);
        r := r + [bills[0]];
      }
    }
    assert fs[..|unique|] == fs;
  }

  lemma BillFeatureAt(typed: seq<TypedRow>, k: nat)
    requires Enriched(typed) && k < |Unique(BillNumbers(typed))|
    ensures |BillFeatures(typed)| == |Unique(BillNumbers(typed))|
    ensures BillFeatures(typed)[k] == typed[FirstIndex(BillNumbers(typed), Unique(BillNumbers(typed))[k])]
    ensures BillFeatures(typed)[k].row.package.value.billNumber == Unique(BillNumbers(typed))[k]
  {
  }

  lemma UnseenSnoc(fs: seq<TypedRow>, k: nat, billIds: seq<string>)
    requires Enriched(fs) && k < |fs|
    ensures Unseen(fs[..k + 1], billIds) == Unseen(fs[..k], billIds)
              + (if fs[k].row.package.value.billNumber !in billIds then [fs[k]] else [])
  {
    assert fs[..k + 1][..k] == fs[..k];
  }

  /** A failing bill type stops the run: nothing after it is fetched. */
  lemma {:induction false} FailureStops(api: Api, apiKey: string, types: seq<BillType>, m: nat, n: nat)
    requires m <= n <= |types| && FetchUpTo(api, apiKey, types, m).Failure?
    ensures FetchUpTo(api, apiKey, types, n) == FetchUpTo(api, apiKey, types, m)
    decreases n - m
  {
    if m < n {
      FailureStops(api, apiKey, types, m, n - 1);
    }
  }

  /** `fetch_bills` with the bill-type table, in its iteration order. The
    * `bill_ids` list it tests is never appended to, so no bill number is
    * ever skipped and each type contributes all of its features. */
  method FetchBills(api: Api, apiKey: string, types: seq<BillType>) returns (r: Result<Fetched, FetchError>)
    ensures r == FetchUpTo(api, apiKey, types, |types|)
  {
    var billDfs: seq<seq<TypedRow>> := [];
    var billFts: seq<TypedRow> := [];
    var billIds: seq<string> := [];

    for t := 0 to |types|
      invariant billIds == []
      invariant FetchUpTo(api, apiKey, types, t) == Success(Fetched(billDfs, billFts))
    {
      var billType, billDesc := types[t].code, types[t].desc;
      var collection := GetCollection(PagesFor(api, billType));
      if collection.Failure? {
        FailureStops(api, apiKey, types, t + 1, |types|);
        return Failure(collection.error);
      }
      var collectDf := GetCollectionDf(api, apiKey, collection.value);
      if collectDf.Failure? {
        FailureStops(api, apiKey, types, t + 1, |types|);
        return Failure(collectDf.error);
      }
      assert TypeRows(api, apiKey, types[t]) == collectDf;
      if |collectDf.value| > 0 {
        TypeRowsEnriched(api, apiKey, types[t]);
        var typed := Tag(collectDf.value, billDesc);
        billFts := AppendFeatures(billFts, typed, billIds);
        UnseenWhenNoneSeen(BillFeatures(typed), billIds);
        billDfs := billDfs + [typed];
      }
    }
    return Success(Fetched(billDfs, billFts));
  }

  /** Every row set is non-empty and labelled with one bill type's
    * description, there is at most one per type, and every feature is a row
    * of some row set. */
  lemma {:induction false} FetchShape(api: Api, apiKey: string, types: seq<BillType>, n: nat)
    requires n <= |types| && FetchUpTo(api, apiKey, types, n).Success?
    ensures |FetchUpTo(api, apiKey, types, n).value.frames| <= n
    ensures forall k :: 0 <= k < |FetchUpTo(api, apiKey, types, n).value.frames| ==>
              && FetchUpTo(api, apiKey, types, n).value.frames[k] != []
              && exists j :: 0 <= j < n &&
                   forall r :: r in FetchUpTo(api, apiKey, types, n).value.frames[k] ==> r.billType == types[j].desc
    ensures forall f :: f in FetchUpTo(api, apiKey, types, n).value.features ==>
              exists k :: 0 <= k < |FetchUpTo(api, apiKey, types, n).value.frames| &&
                f in FetchUpTo(api, apiKey, types, n).value.frames[k]
  {
    if n > 0 {
      FetchShape(api, apiKey, types, n - 1);
      var prev := FetchUpTo(api, apiKey, types, n - 1).value;
      var rows := TypeRows(api, apiKey, types[n - 1]).value;
      if rows != [] {
        TypeRowsEnriched(api, apiKey, types[n - 1]);
        var typed := Tag(rows, types[n - 1].desc);
        var cur := FetchUpTo(api, apiKey, types, n).value;
        assert cur == Fetched(prev.frames + [typed], prev.features + BillFeatures(typed));
        forall k | 0 <= k < |cur.frames|
          ensures cur.frames[k] != []
          ensures exists j :: 0 <= j < n && forall r :: r in cur.frames[k] ==> r.billType == types[j].desc
        {
          if k < |prev.frames| {
            assert cur.frames[k] == prev.frames[k];
            var j :| 0 <= j < n - 1 && forall r :: r in prev.frames[k] ==> r.billType == types[j].desc;
          } else {
            assert cur.frames[k] == typed;
            assert forall r :: r in typed ==> r.billType == types[n - 1].desc;
          }
        }
        forall f | f in cur.features
          ensures exists k :: 0 <= k < |cur.frames| && f in cur.frames[k]
        {
          if f in prev.features {
            var k :| 0 <= k < |prev.frames| && f in prev.frames[k];
            assert cur.frames[k] == prev.frames[k];
          } else {
            assert f in BillFeatures(typed);
            assert f in cur.frames[|prev.frames|];
          }
        }
      }
    }
  }

  /** The positions, below `n`, of the bill types that resolve with rows:
    * the types that contribute a row set, in table order. */
  function Contributors(api: Api, apiKey: string, types: seq<BillType>, n: nat): (js: seq<nat>)
    requires n <= |types|
    ensures forall k :: 0 <= k < |js| ==> js[k] < n
    ensures forall k, l :: 0 <= k < l < |js| ==> js[k] < js[l]
    ensures forall j :: 0 <= j < n ==>
              (j in js <==> TypeRows(api, apiKey, types[j]).Success? && TypeRows(api, apiKey, types[j]).value != [])
  {
    if n == 0 then []
    else
      var t := TypeRows(api, apiKey, types[n - 1]);
      Contributors(api, apiKey, types, n - 1) + (if t.Success? && t.value != [] then [n - 1] else [])
  }

  /** Every bill type up to `n` resolves, and the row sets are, in order,
    * the tagged rows of exactly the types that have rows, each labelled
    * with its own type's description. */
  lemma {:induction false} FetchFrames(api: Api, apiKey: string, types: seq<BillType>, n: nat)
    requires n <= |types| && FetchUpTo(api, apiKey, types, n).Success?
    ensures forall j :: 0 <= j < n ==> TypeRows(api, apiKey, types[j]).Success?
    ensures |FetchUpTo(api, apiKey, types, n).value.frames| == |Contributors(api, apiKey, types, n)|
    ensures forall k :: 0 <= k < |Contributors(api, apiKey, types, n)| ==>
              FetchUpTo(api, apiKey, types, n).value.frames[k]
              == Tag(TypeRows(api, apiKey, types[Contributors(api, apiKey, types, n)[k]]).value,
                     types[Contributors(api, apiKey, types, n)[k]].desc)
  {
    if n > 0 {
      FetchFrames(api, apiKey, types, n - 1);
      var prev := FetchUpTo(api, apiKey, types, n - 1).value;
      var cur := FetchUpTo(api, apiKey, types, n).value;
      var js, pjs := Contributors(api, apiKey, types, n), Contributors(api, apiKey, types, n - 1);
      var t := TypeRows(api, apiKey, types[n - 1]);
      assert t.Success?;
      if t.value == [] {
        assert cur == prev && js == pjs;
      } else {
        assert cur.frames == prev.frames + [Tag(t.value, types[n - 1].desc)];
        assert js == pjs + [n - 1];
      }
    }
  }

  predicate AllEnriched(frames: seq<seq<TypedRow>>)
  {
    forall k :: 0 <= k < |frames| ==> Enriched(frames[k])
  }

  /** The features of each row set, one row set after another. */
  function FeaturesOf(frames: seq<seq<TypedRow>>): seq<TypedRow>
    requires AllEnriched(frames)
  {
    if frames == [] then []
    else FeaturesOf(frames[..|frames| - 1]) + BillFeatures(frames[|frames| - 1])
  }

  /** Some feature of `fs` carries bill number `b`. */
  predicate HasFeature(fs: seq<TypedRow>, b: string)
  {
    exists f :: f in fs && f.row.package.Some? && f.row.package.value.billNumber == b
  }

  /** Within one row set, every row's bill number has a feature. */
  lemma BillFeaturesCoverRow(rows: seq<TypedRow>, i: nat)
    requires Enriched(rows) && i < |rows|
    ensures HasFeature(BillFeatures(rows), rows[i].row.package.value.billNumber)
  {
    BillFeaturesSpec(rows);
    var fks := BillNumbers(BillFeatures(rows));
    assert BillNumbers(rows)[i] in fks;
    var q :| 0 <= q < |fks| && fks[q] == BillNumbers(rows)[i];
    assert BillFeatures(rows)[q] in BillFeatures(rows);
  }

  lemma HasFeatureAppend(a: seq<TypedRow>, c: seq<TypedRow>, b: string)
    requires HasFeature(a, b) || HasFeature(c, b)
    ensures HasFeature(a + c, b)
  {
    var f :| (f in a || f in c) && f.row.package.Some? && f.row.package.value.billNumber == b;
    assert f in a + c;
  }

  /** No bill number is lost: every row of every row set has a feature
    * carrying its bill number. */
  lemma {:induction false} FeaturesCover(frames: seq<seq<TypedRow>>)
    requires AllEnriched(frames)
    ensures forall k, i :: 0 <= k < |frames| && 0 <= i < |frames[k]| ==>
              HasFeature(FeaturesOf(frames), frames[k][i].row.package.value.billNumber)
  {
    if frames != [] {
      var m := |frames| - 1;
      var p := frames[..m];
      assert forall k :: 0 <= k < m ==> p[k] == frames[k];
      FeaturesCover(p);
      forall k, i | 0 <= k < |frames| && 0 <= i < |frames[k]|
        ensures HasFeature(FeaturesOf(frames), frames[k][i].row.package.value.billNumber)
      {
        var b := frames[k][i].row.package.value.billNumber;
        if k < m {
          assert p[k][i] == frames[k][i];
        } else {
          BillFeaturesCoverRow(frames[m], i);
        }
        HasFeatureAppend(FeaturesOf(p), BillFeatures(frames[m]), b);
      }
    }
  }

  /** The features are those of the row sets, each row set's in turn, so
    * with `FeaturesCover` no bill of any row set is skipped. */
  lemma {:induction false} FetchFeatures(api: Api, apiKey: string, types: seq<BillType>, n: nat)
    requires n <= |types| && FetchUpTo(api, apiKey, types, n).Success?
    ensures AllEnriched(FetchUpTo(api, apiKey, types, n).value.frames)
    ensures FetchUpTo(api, apiKey, types, n).value.features == FeaturesOf(FetchUpTo(api, apiKey, types, n).value.frames)
  {
    if n > 0 {
      FetchFeatures(api, apiKey, types, n - 1);
      var prev := FetchUpTo(api, apiKey, types, n - 1).value;
      var cur := FetchUpTo(api, apiKey, types, n).value;
      var rows := TypeRows(api, apiKey, types[n - 1]).value;
      if rows != [] {
        TypeRowsEnriched(api, apiKey, types[n - 1]);
        var typed := Tag(rows, types[n - 1].desc);
        assert cur == Fetched(prev.frames + [typed], prev.features + BillFeatures(typed));
        assert cur.frames[..|cur.frames| - 1] == prev.frames;
      }
    }
  }
}
