/**
 * The allocation aggregator: portfolio total, the three grouped views
 * (by asset type, by risk profile, by pot), per-asset allocation
 * percentages and the portfolio record.
 *
 * The grouping functions of the source fill a string-keyed dictionary in
 * a single pass and then list its entries in insertion order. Here that
 * pass is the loop of `GroupAssets`, proved equal to `Entries`, a closed
 * form built from `Keys` (the distinct keys in order of first occurrence)
 * and `Members` (the assets carrying one key, in input order).
 */
module PortfolioCalculations {
  import opened PortfolioTypes

  // ---------------------------------------------------------------------
  // Sums and percentages
  // ---------------------------------------------------------------------

  /** The portfolio's total value: a left fold of the asset values from 0. */
  function PortfolioValue(assets: seq<Asset>): (total: real)
    ensures assets == [] ==> total == 0.0
    ensures (forall i :: 0 <= i < |assets| ==> assets[i].value >= 0.0) ==> total >= 0.0
  {
    if assets == [] then 0.0
    else PortfolioValue(assets[..|assets| - 1]) + assets[|assets| - 1].value
  }

  /** Sum of a list of reals, folded from the left like `PortfolioValue`. */
  function SumReals(xs: seq<real>): real {
    if xs == [] then 0.0 else SumReals(xs[..|xs| - 1]) + xs[|xs| - 1]
  }

  /** The asset values, in order. */
  function Values(assets: seq<Asset>): (vs: seq<real>)
    ensures |vs| == |assets|
  {
    seq(|assets|, i requires 0 <= i < |assets| => assets[i].value)
  }

  /** Percentage share of `value` in `total`; a total that is not positive gives 0. */
  function Percentage(value: real, total: real): real {
    if total > 0.0 then value / total * 100.0 else 0.0
  }

  /** A percentage is 0 over a non-positive total; otherwise it scales back to the value, and a part of the total lies in [0, 100]. */
  lemma PercentageScale(value: real, total: real)
    ensures total <= 0.0 ==> Percentage(value, total) == 0.0
    ensures total > 0.0 ==> Percentage(value, total) * total == value * 100.0
    ensures 0.0 <= value <= total ==> 0.0 <= Percentage(value, total) <= 100.0
  {
  }

  /** The percentage shares of each entry of `xs` in `total`. */
  function Shares(xs: seq<real>, total: real): (ps: seq<real>)
    ensures |ps| == |xs|
  {
    seq(|xs|, i requires 0 <= i < |xs| => Percentage(xs[i], total))
  }

  lemma {:induction false} PortfolioValueIsSumOfValues(assets: seq<Asset>)
    ensures PortfolioValue(assets) == SumReals(Values(assets))
  {
    if assets != [] {
      var n := |assets|;
      PortfolioValueIsSumOfValues(assets[..n - 1]);
      assert Values(assets)[..n - 1] == Values(assets[..n - 1]);
    }
  }

  /** The total of two lists one after the other is the sum of their totals. */
  lemma {:induction false} PortfolioValueAppend(s: seq<Asset>, t: seq<Asset>)
    ensures PortfolioValue(s + t) == PortfolioValue(s) + PortfolioValue(t)
  {
    if t == [] {
      assert s + t == s;
    } else {
      var n := |t|;
      assert (s + t)[..|s + t| - 1] == s + t[..n - 1];
      PortfolioValueAppend(s, t[..n - 1]);
    }
  }

  /** Shares of a positive total add up to the sum of the parts, scaled to 100. */
  lemma {:induction false} SharesSum(xs: seq<real>, total: real)
    requires total > 0.0
    ensures SumReals(Shares(xs, total)) == SumReals(xs) / total * 100.0
  {
    if xs != [] {
      var n := |xs|;
      assert Shares(xs, total)[..n - 1] == Shares(xs[..n - 1], total);
      SharesSum(xs[..n - 1], total);
      var a := SumReals(xs[..n - 1]);
      var b := xs[n - 1];
      assert a / total * 100.0 + b / total * 100.0 == (a + b) / total * 100.0;
    }
  }

  /** Every non-negative part of a sum is at most the sum. */
  lemma {:induction false} SumRealsBound(xs: seq<real>, i: nat)
    requires i < |xs|
    requires forall j :: 0 <= j < |xs| ==> xs[j] >= 0.0
    ensures 0.0 <= xs[i] <= SumReals(xs)
  {
    var n := |xs|;
    var ys := xs[..n - 1];
    SumRealsNonNegative(ys);
    if i < n - 1 {
      SumRealsBound(ys, i);
    }
  }

  lemma {:induction false} SumRealsNonNegative(xs: seq<real>)
    requires forall j :: 0 <= j < |xs| ==> xs[j] >= 0.0
    ensures SumReals(xs) >= 0.0
  {
    if xs != [] {
      SumRealsNonNegative(xs[..|xs| - 1]);
    }
  }

  /** Shares of parts lying between 0 and a positive total lie between 0 and 100. */
  lemma SharesBounded(xs: seq<real>, total: real)
    requires forall j :: 0 <= j < |xs| ==> 0.0 <= xs[j] <= total
    ensures forall j :: 0 <= j < |xs| ==> 0.0 <= Shares(xs, total)[j] <= 100.0
  {
    forall j | 0 <= j < |xs|
      ensures 0.0 <= Shares(xs, total)[j] <= 100.0
    {
      if total > 0.0 {
        assert xs[j] / total <= 1.0;
      }
    }
  }

  // ---------------------------------------------------------------------
  // Grouping
  // ---------------------------------------------------------------------

  /*
   * The grouping below is stated for any key function; the three views
   * use the following ones, each giving the literal name of one attribute.
   */

  function TypeKey(a: Asset): string { AssetTypeName(a.assetType) }
  function RiskKey(a: Asset): string { RiskProfileName(a.riskProfile) }
  function PotKey(a: Asset): string { RiskProfileName(a.pot) }

  /** The distinct keys of `s`, in order of first occurrence. */
  function Keys(s: seq<Asset>, key: Asset -> string): seq<string> {
    if s == [] then []
    else
      var ks := Keys(s[..|s| - 1], key);
      var k := key(s[|s| - 1]);
      if k in ks then ks else ks + [k]
  }

  /** The assets of `s` filed under key `k`, in input order. */
  function Members(s: seq<Asset>, key: Asset -> string, k: string): seq<Asset> {
    if s == [] then []
    else
      var ms := Members(s[..|s| - 1], key, k);
      if key(s[|s| - 1]) == k then ms + [s[|s| - 1]] else ms
  }

  /** The dictionary value accumulated for one key: summed value, count and members. */
  datatype Bucket = Bucket(value: real, count: nat, assets: seq<Asset>)

  /** One entry of the dictionary, as listed by its entries. */
  datatype Group = Group(key: string, bucket: Bucket)

  /** The accumulated bucket for key `k` of the assets `s`. */
  function BucketOf(s: seq<Asset>, key: Asset -> string, k: string): Bucket {
    var ms := Members(s, key, k);
    Bucket(PortfolioValue(ms), |ms|, ms)
  }

  /** The groups of `s` for a list of keys `ks`, in that order. */
  function GroupsFor(s: seq<Asset>, key: Asset -> string, ks: seq<string>): (gs: seq<Group>)
    ensures |gs| == |ks|
  {
    if ks == [] then []
    else GroupsFor(s, key, ks[..|ks| - 1]) + [Group(ks[|ks| - 1], BucketOf(s, key, ks[|ks| - 1]))]
  }

  lemma {:induction false} GroupsForAt(s: seq<Asset>, key: Asset -> string, ks: seq<string>, i: nat)
    requires i < |ks|
    ensures GroupsFor(s, key, ks)[i] == Group(ks[i], BucketOf(s, key, ks[i]))
  {
    if i < |ks| - 1 {
      GroupsForAt(s, key, ks[..|ks| - 1], i);
    }
  }

  /** Group i of `s` has the i-th key and that key's bucket. */
  lemma EntriesAt(s: seq<Asset>, key: Asset -> string)
    ensures |Entries(s, key)| == |Keys(s, key)|
    ensures forall i :: 0 <= i < |Keys(s, key)| ==>
              Entries(s, key)[i] == Group(Keys(s, key)[i], BucketOf(s, key, Keys(s, key)[i]))
  {
    forall i | 0 <= i < |Keys(s, key)|
      ensures Entries(s, key)[i] == Group(Keys(s, key)[i], BucketOf(s, key, Keys(s, key)[i]))
    {
      GroupsForAt(s, key, Keys(s, key), i);
    }
  }

  /** The groups of `s` under `key`, one per distinct key, in order of first occurrence. */
  function Entries(s: seq<Asset>, key: Asset -> string): seq<Group> {
    GroupsFor(s, key, Keys(s, key))
  }

  /** The summed value of each group, in order. */
  function GroupValues(gs: seq<Group>): (vs: seq<real>)
    ensures |vs| == |gs|
  {
    seq(|gs|, i requires 0 <= i < |gs| => gs[i].bucket.value)
  }

  /** The members of all groups, one group after another. */
  function Flatten(gs: seq<Group>): seq<Asset> {
    if gs == [] then [] else Flatten(gs[..|gs| - 1]) + gs[|gs| - 1].bucket.assets
  }

  /**
   * One pass over the assets that files each one under its key, creating
   * the bucket on first sight and then adding the asset's value, one to
   * the count and the asset itself; the entries are listed in the order
   * their keys were first inserted.
   */
  method GroupAssets(assets: seq<Asset>, key: Asset -> string) returns (groups: seq<Group>)
    ensures groups == Entries(assets, key)
  {
    var order: seq<string> := [];
    var acc: map<string, Bucket> := map[];
    var i := 0;
    while i < |assets|
      invariant 0 <= i <= |assets|
      invariant order == Keys(assets[..i], key)
      invariant acc == Filing(assets[..i], key)
    {
      var a := assets[i];
      var k := key(a);
      assert assets[..i + 1] == assets[..i] + [a];
      FilingStep(assets[..i], a, assets[..i + 1], key);
      if k !in acc {
        acc := acc[k := Bucket(0.0, 0, [])];
        order := order + [k];
      }
      var b := acc[k];
      acc := acc[k := Bucket(b.value + a.value, b.count + 1, b.assets + [a])];
      i := i + 1;
    }
    assert assets[..i] == assets;
    FilingListsEntries(assets, key);
    groups := seq(|order|, j requires 0 <= j < |order| => Group(order[j], acc[order[j]]));
  }

  /**
   * The dictionary after one pass over `s`: each asset, in turn, creates
   * the bucket of its key if it is missing and is then added to it.
   */
  function Filing(s: seq<Asset>, key: Asset -> string): map<string, Bucket> {
    if s == [] then map[]
    else
      var m := Filing(s[..|s| - 1], key);
      var a := s[|s| - 1];
      var b := if key(a) in m then m[key(a)] else Bucket(0.0, 0, []);
      m[key(a) := Bucket(b.value + a.value, b.count + 1, b.assets + [a])]
  }

  /** Listing the dictionary in key insertion order gives the entries. */
  lemma {:induction false} FilingListsEntries(s: seq<Asset>, key: Asset -> string)
    ensures |Entries(s, key)| == |Keys(s, key)|
    ensures forall j :: 0 <= j < |Keys(s, key)| ==>
              Keys(s, key)[j] in Filing(s, key) &&
              Entries(s, key)[j] == Group(Keys(s, key)[j], Filing(s, key)[Keys(s, key)[j]])
  {
    FilingDomain(s, key);
    FilingBuckets(s, key);
    EntriesAt(s, key);
  }

  /** One more asset: its key is appended on first sight, and its bucket grows by it. */
  lemma FilingStep(s: seq<Asset>, a: Asset, s': seq<Asset>, key: Asset -> string)
    requires s' == s + [a]
    ensures key(a) in Filing(s, key) <==> key(a) in Keys(s, key)
    ensures Keys(s', key) == if key(a) in Keys(s, key) then Keys(s, key) else Keys(s, key) + [key(a)]
    ensures var m := Filing(s, key);
      var b := if key(a) in m then m[key(a)] else Bucket(0.0, 0, []);
      Filing(s', key) == m[key(a) := Bucket(b.value + a.value, b.count + 1, b.assets + [a])]
  {
    assert s'[..|s|] == s;
    FilingDomain(s, key);
  }

  /** The dictionary holds exactly the keys seen so far. */
  lemma {:induction false} FilingDomain(s: seq<Asset>, key: Asset -> string)
    ensures forall k :: k in Filing(s, key) <==> k in Keys(s, key)
  {
    if s != [] {
      var n := |s|;
      FilingDomain(s[..n - 1], key);
      SnocUnfold(s[..n - 1], s[n - 1], key);
      assert s == s[..n - 1] + [s[n - 1]];
    }
  }

  /** Each key of the dictionary holds the summed value, the count and the list of its members. */
  lemma {:induction false} FilingBuckets(s: seq<Asset>, key: Asset -> string)
    ensures forall k :: k in Filing(s, key) ==> Filing(s, key)[k] == BucketOf(s, key, k)
  {
    if s != [] {
      var n := |s|;
      var s0, a := s[..n - 1], s[n - 1];
      assert s == s0 + [a];
      FilingBuckets(s0, key);
      FilingDomain(s0, key);
      forall k | k in Filing(s, key) ensures Filing(s, key)[k] == BucketOf(s, key, k) {
        BucketSnoc(s0, a, key, k);
        if key(a) == k && k !in Filing(s0, key) {
          MembersIffKey(s0, key, k);
        }
      }
    }
  }

  /** How the keys and the members change when one asset is added at the end. */
  lemma SnocUnfold(s: seq<Asset>, a: Asset, key: Asset -> string)
    ensures Keys(s + [a], key)
      == if key(a) in Keys(s, key) then Keys(s, key) else Keys(s, key) + [key(a)]
    ensures forall k {:trigger Members(s + [a], key, k)} ::
      Members(s + [a], key, k) == Members(s, key, k) + (if key(a) == k then [a] else [])
  {
    assert (s + [a])[..|s|] == s;
  }

  lemma PortfolioValueSnoc(s: seq<Asset>, a: Asset)
    ensures PortfolioValue(s + [a]) == PortfolioValue(s) + a.value
  {
    assert (s + [a])[..|s|] == s;
  }

  // --- properties of the keys ---

  /** A key is listed exactly when it has members, exactly when some asset carries it. */
  lemma {:induction false} MembersIffKey(s: seq<Asset>, key: Asset -> string, k: string)
    ensures k in Keys(s, key) <==> Members(s, key, k) != []
    ensures k in Keys(s, key) <==> exists p :: 0 <= p < |s| && key(s[p]) == k
  {
    if s != [] {
      var n := |s|;
      MembersIffKey(s[..n - 1], key, k);
      if key(s[n - 1]) != k && k in Keys(s, key) {
        var p :| 0 <= p < n - 1 && key(s[..n - 1][p]) == k;
        assert key(s[p]) == k;
      }
      if exists p :: 0 <= p < n && key(s[p]) == k {
        var p :| 0 <= p < n && key(s[p]) == k;
        if p < n - 1 {
          assert key(s[..n - 1][p]) == k;
        }
      }
    }
  }

  /** No key is listed twice. */
  lemma {:induction false} KeysDistinct(s: seq<Asset>, key: Asset -> string)
    ensures forall i, j :: 0 <= i < j < |Keys(s, key)| ==> Keys(s, key)[i] != Keys(s, key)[j]
  {
    if s != [] {
      KeysDistinct(s[..|s| - 1], key);
    }
  }

  /** The keys of a prefix of the assets are a prefix of the keys: insertion order is first-seen order. */
  lemma {:induction false} KeysOfPrefix(s: seq<Asset>, key: Asset -> string, m: nat)
    requires m <= |s|
    ensures Keys(s[..m], key) <= Keys(s, key)
  {
    if m < |s| {
      var n := |s|;
      assert s[..n - 1][..m] == s[..m];
      KeysOfPrefix(s[..n - 1], key, m);
    } else {
      assert s[..m] == s;
    }
  }

  /**
   * First-occurrence order: wherever an asset carries a later key, an
   * earlier asset carries each key listed before it.
   */
  lemma KeysInFirstSeenOrder(s: seq<Asset>, key: Asset -> string, i: nat, j: nat, p: nat)
    requires i < j < |Keys(s, key)|
    requires p < |s| && key(s[p]) == Keys(s, key)[j]
    ensures exists q :: 0 <= q < p && key(s[q]) == Keys(s, key)[i]
  {
    var ks := Keys(s, key);
    var pre := s[..p + 1];
    KeysOfPrefix(s, key, p + 1);
    assert key(pre[p]) == ks[j];
    MembersIffKey(pre, key, ks[j]);
    var kp := Keys(pre, key);
    var jj :| 0 <= jj < |kp| && kp[jj] == ks[j];
    KeysDistinct(s, key);
    assert jj == j;
    assert ks[i] == kp[i];
    MembersIffKey(pre, key, ks[i]);
    var q :| 0 <= q < p + 1 && key(pre[q]) == ks[i];
    assert q != p;
    assert key(s[q]) == ks[i];
  }

  // --- properties of the groups ---

  /** Every member of a group carries its key, and members come in input order. */
  lemma {:induction false} MembersCarryKey(s: seq<Asset>, key: Asset -> string, k: string)
    ensures forall x :: x in Members(s, key, k) ==> x in s && key(x) == k
    ensures multiset(Members(s, key, k)) <= multiset(s)
  {
    if s != [] {
      var n := |s|;
      MembersCarryKey(s[..n - 1], key, k);
      assert s == s[..n - 1] + [s[n - 1]];
    }
  }

  lemma FlattenSnoc(gs: seq<Group>, g: Group)
    ensures Flatten(gs + [g]) == Flatten(gs) + g.bucket.assets
  {
    assert (gs + [g])[..|gs|] == gs;
  }

  lemma GroupValuesSnoc(gs: seq<Group>, g: Group)
    ensures SumReals(GroupValues(gs + [g])) == SumReals(GroupValues(gs)) + g.bucket.value
  {
    assert GroupValues(gs + [g])[..|gs|] == GroupValues(gs);
  }

  /** The last key of a distinct list does not occur before it. */
  lemma LastKeyFresh(ks: seq<string>)
    requires ks != []
    requires forall i, j :: 0 <= i < j < |ks| ==> ks[i] != ks[j]
    ensures ks == ks[..|ks| - 1] + [ks[|ks| - 1]]
    ensures ks[|ks| - 1] !in ks[..|ks| - 1]
  {
    var ks0 := ks[..|ks| - 1];
    forall j | 0 <= j < |ks0| ensures ks0[j] != ks[|ks| - 1] {
      assert ks0[j] == ks[j];
    }
  }

  /** The members of the keys `ks`, one key after another. */
  function MembersOf(s: seq<Asset>, key: Asset -> string, ks: seq<string>): seq<Asset> {
    if ks == [] then [] else MembersOf(s, key, ks[..|ks| - 1]) + Members(s, key, ks[|ks| - 1])
  }

  lemma {:induction false} FlattenGroupsFor(s: seq<Asset>, key: Asset -> string, ks: seq<string>)
    ensures Flatten(GroupsFor(s, key, ks)) == MembersOf(s, key, ks)
  {
    if ks != [] {
      var m := |ks|;
      var g := Group(ks[m - 1], BucketOf(s, key, ks[m - 1]));
      FlattenGroupsFor(s, key, ks[..m - 1]);
      FlattenSnoc(GroupsFor(s, key, ks[..m - 1]), g);
    }
  }

  /** Adding one asset at the end adds it to the members of its own key only. */
  lemma {:induction false} MembersOfSnoc(s: seq<Asset>, a: Asset, key: Asset -> string, ks: seq<string>)
    requires forall i, j :: 0 <= i < j < |ks| ==> ks[i] != ks[j]
    ensures multiset(MembersOf(s + [a], key, ks))
      == multiset(MembersOf(s, key, ks)) + (if key(a) in ks then multiset{a} else multiset{})
  {
    if ks != [] {
      var m := |ks|;
      var k, ks0 := ks[m - 1], ks[..m - 1];
      var here: multiset<Asset> := if key(a) == k then multiset{a} else multiset{};
      var before: multiset<Asset> := if key(a) in ks0 then multiset{a} else multiset{};
      assert multiset(MembersOf(s + [a], key, ks0)) == multiset(MembersOf(s, key, ks0)) + before by {
        LastKeyFresh(ks);
        MembersOfSnoc(s, a, key, ks0);
      }
      assert multiset(Members(s + [a], key, k)) == multiset(Members(s, key, k)) + here by {
        SnocUnfold(s, a, key);
      }
      assert (if key(a) in ks then multiset{a} else multiset{}) == before + here by {
        LastKeyFresh(ks);
      }
      Regroup(multiset(MembersOf(s, key, ks0)), before, multiset(Members(s, key, k)), here);
    }
  }

  lemma Regroup<T>(f: multiset<T>, x: multiset<T>, b: multiset<T>, y: multiset<T>)
    ensures (f + x) + (b + y) == (f + b) + (x + y)
  {
  }

  /** Adding one asset at the end adds its value to the group of its key only. */
  lemma {:induction false} GroupValuesForSnoc(s: seq<Asset>, a: Asset, key: Asset -> string, ks: seq<string>)
    requires forall i, j :: 0 <= i < j < |ks| ==> ks[i] != ks[j]
    ensures SumReals(GroupValues(GroupsFor(s + [a], key, ks)))
      == SumReals(GroupValues(GroupsFor(s, key, ks))) + (if key(a) in ks then a.value else 0.0)
  {
    if ks != [] {
      var m := |ks|;
      var k, ks0 := ks[m - 1], ks[..m - 1];
      LastKeyFresh(ks);
      GroupValuesForSnoc(s, a, key, ks0);
      var b', b := BucketOf(s + [a], key, k), BucketOf(s, key, k);
      BucketSnoc(s, a, key, k);
      var g0', g0 := GroupsFor(s + [a], key, ks0), GroupsFor(s, key, ks0);
      assert GroupsFor(s + [a], key, ks) == g0' + [Group(k, b')];
      assert GroupsFor(s, key, ks) == g0 + [Group(k, b)];
      GroupValuesSnoc(g0', Group(k, b'));
      GroupValuesSnoc(g0, Group(k, b));
    }
  }

  /** Adding one asset at the end adds it and its value to the bucket of its own key only. */
  lemma BucketSnoc(s: seq<Asset>, a: Asset, key: Asset -> string, k: string)
    ensures BucketOf(s + [a], key, k).assets == BucketOf(s, key, k).assets + (if key(a) == k then [a] else [])
    ensures BucketOf(s + [a], key, k).value == BucketOf(s, key, k).value + (if key(a) == k then a.value else 0.0)
    ensures BucketOf(s + [a], key, k).count == BucketOf(s, key, k).count + (if key(a) == k then 1 else 0)
  {
    SnocUnfold(s, a, key);
    if key(a) == k {
      PortfolioValueSnoc(Members(s, key, k), a);
    }
  }

  lemma {:induction false} GroupsForEmpty(key: Asset -> string, ks: seq<string>)
    ensures SumReals(GroupValues(GroupsFor([], key, ks))) == 0.0
  {
    if ks != [] {
      var m := |ks|;
      var g := Group(ks[m - 1], BucketOf([], key, ks[m - 1]));
      GroupsForEmpty(key, ks[..m - 1]);
      GroupValuesSnoc(GroupsFor([], key, ks[..m - 1]), g);
    }
  }

  lemma {:induction false} MembersOfEmpty(key: Asset -> string, ks: seq<string>)
    ensures MembersOf([], key, ks) == []
  {
    if ks != [] {
      MembersOfEmpty(key, ks[..|ks| - 1]);
    }
  }

  /** For distinct keys covering every asset, the members of the keys hold every asset exactly once. */
  lemma {:induction false} MembersOfCover(s: seq<Asset>, key: Asset -> string, ks: seq<string>)
    requires forall i, j :: 0 <= i < j < |ks| ==> ks[i] != ks[j]
    requires forall p :: 0 <= p < |s| ==> key(s[p]) in ks
    ensures multiset(MembersOf(s, key, ks)) == multiset(s)
  {
    if s == [] {
      MembersOfEmpty(key, ks);
    } else {
      var n := |s|;
      var s0 := s[..n - 1];
      assert s == s0 + [s[n - 1]];
      assert forall p :: 0 <= p < |s0| ==> s0[p] == s[p];
      MembersOfCover(s0, key, ks);
      MembersOfSnoc(s0, s[n - 1], key, ks);
    }
  }

  /** For distinct keys covering every asset, the group values add up to the portfolio total. */
  lemma {:induction false} GroupsForCover(s: seq<Asset>, key: Asset -> string, ks: seq<string>)
    requires forall i, j :: 0 <= i < j < |ks| ==> ks[i] != ks[j]
    requires forall p :: 0 <= p < |s| ==> key(s[p]) in ks
    ensures SumReals(GroupValues(GroupsFor(s, key, ks))) == PortfolioValue(s)
  {
    if s == [] {
      GroupsForEmpty(key, ks);
    } else {
      var n := |s|;
      var s0 := s[..n - 1];
      assert s == s0 + [s[n - 1]];
      assert forall p :: 0 <= p < |s0| ==> s0[p] == s[p];
      GroupsForCover(s0, key, ks);
      GroupValuesForSnoc(s0, s[n - 1], key, ks);
    }
  }

  /** The groups of `s` partition it: together they hold every asset exactly once. */
  lemma EntriesPartition(s: seq<Asset>, key: Asset -> string)
    ensures multiset(Flatten(Entries(s, key))) == multiset(s)
  {
    KeysDistinct(s, key);
    forall p | 0 <= p < |s| ensures key(s[p]) in Keys(s, key) {
      MembersIffKey(s, key, key(s[p]));
    }
    MembersOfCover(s, key, Keys(s, key));
    FlattenGroupsFor(s, key, Keys(s, key));
  }

  /** Every asset of a group carries that group's key. */
  lemma EntriesCarryKey(s: seq<Asset>, key: Asset -> string)
    ensures forall i, x :: 0 <= i < |Entries(s, key)| && x in Entries(s, key)[i].bucket.assets
              ==> key(x) == Entries(s, key)[i].key
  {
    EntriesAt(s, key);
    forall i, x | 0 <= i < |Entries(s, key)| && x in Entries(s, key)[i].bucket.assets
      ensures key(x) == Entries(s, key)[i].key
    {
      MembersCarryKey(s, key, Keys(s, key)[i]);
    }
  }

  /** The group values add up to the portfolio total. */
  lemma EntriesValueSum(s: seq<Asset>, key: Asset -> string)
    ensures SumReals(GroupValues(Entries(s, key))) == PortfolioValue(s)
  {
    KeysDistinct(s, key);
    forall p | 0 <= p < |s| ensures key(s[p]) in Keys(s, key) {
      MembersIffKey(s, key, key(s[p]));
    }
    GroupsForCover(s, key, Keys(s, key));
  }

  /** With non-negative asset values every group value lies between 0 and the total. */
  lemma EntriesValueBounds(s: seq<Asset>, key: Asset -> string)
    requires forall p :: 0 <= p < |s| ==> s[p].value >= 0.0
    ensures forall i :: 0 <= i < |Entries(s, key)| ==>
              0.0 <= Entries(s, key)[i].bucket.value <= PortfolioValue(s)
  {
    var vs := GroupValues(Entries(s, key));
    EntriesAt(s, key);
    forall i | 0 <= i < |vs| ensures vs[i] >= 0.0 {
      var ms := Members(s, key, Keys(s, key)[i]);
      MembersCarryKey(s, key, Keys(s, key)[i]);
      forall j | 0 <= j < |ms| ensures ms[j].value >= 0.0 {
        assert ms[j] in s;
      }
      assert vs[i] == Entries(s, key)[i].bucket.value == PortfolioValue(ms);
    }
    EntriesValueSum(s, key);
    forall i | 0 <= i < |vs| ensures 0.0 <= Entries(s, key)[i].bucket.value <= PortfolioValue(s) {
      assert vs[i] == Entries(s, key)[i].bucket.value;
      SumRealsBound(vs, i);
    }
  }

  /** Group percentages: 100 in all over a positive total, all 0 otherwise, each in [0, 100]. */
  lemma EntriesShares(s: seq<Asset>, key: Asset -> string)
    ensures PortfolioValue(s) > 0.0 ==>
              SumReals(Shares(GroupValues(Entries(s, key)), PortfolioValue(s))) == 100.0
    ensures PortfolioValue(s) <= 0.0 ==>
              forall i :: 0 <= i < |Entries(s, key)| ==> Shares(GroupValues(Entries(s, key)), PortfolioValue(s))[i] == 0.0
    ensures (forall p :: 0 <= p < |s| ==> s[p].value >= 0.0) ==>
              forall i :: 0 <= i < |Entries(s, key)| ==>
                0.0 <= Shares(GroupValues(Entries(s, key)), PortfolioValue(s))[i] <= 100.0
  {
    var total := PortfolioValue(s);
    var vs := GroupValues(Entries(s, key));
    if total > 0.0 {
      EntriesValueSum(s, key);
      SharesOfWhole(vs, total);
    }
    if forall p :: 0 <= p < |s| ==> s[p].value >= 0.0 {
      EntriesValueBounds(s, key);
      forall i | 0 <= i < |vs| ensures 0.0 <= vs[i] <= total {
        assert vs[i] == Entries(s, key)[i].bucket.value;
      }
      SharesBounded(vs, total);
    }
  }

  /** Shares of parts that make up a positive total add up to exactly 100. */
  lemma SharesOfWhole(xs: seq<real>, total: real)
    requires total > 0.0 && SumReals(xs) == total
    ensures SumReals(Shares(xs, total)) == 100.0
  {
    SharesSum(xs, total);
    assert SumReals(xs) / total == 1.0;
  }

  /** Every listed key is the key of some asset. */
  lemma KeyOfSomeAsset(s: seq<Asset>, key: Asset -> string, i: nat)
    requires i < |Keys(s, key)|
    ensures exists p :: 0 <= p < |s| && key(s[p]) == Keys(s, key)[i]
  {
    MembersIffKey(s, key, Keys(s, key)[i]);
  }

  // ---------------------------------------------------------------------
  // Labels and colours
  // ---------------------------------------------------------------------

  /** The colour used for any key the tables do not list. */
  const DefaultColor: string := "#6B7280"

  const TypeColors: map<string, string> :=
    map["stock" := "#3B82F6", "fund" := "#059669", "sipp" := "#7C3AED", "cash" := "#D97706"]

  const RiskColors: map<string, string> :=
    map["very-cautious" := "#10B981", "moderately-cautious" := "#34D399",
        "balanced" := "#FBBF24", "moderately-adventurous" := "#F59E0B",
        "adventurous" := "#EF4444", "very-adventurous" := "#DC2626"]

  const RiskLabels: map<string, string> :=
    map["very-cautious" := "Very Cautious", "moderately-cautious" := "Moderately Cautious",
        "balanced" := "Balanced", "moderately-adventurous" := "Moderately Adventurous",
        "adventurous" := "Adventurous", "very-adventurous" := "Very Adventurous"]

  const PotColors: map<string, string> :=
    map["very-cautious" := "#64748B", "moderately-cautious" := "#94A3B8",
        "balanced" := "#3B82F6", "moderately-adventurous" := "#6366F1",
        "adventurous" := "#8B5CF6", "very-adventurous" := "#A855F7"]

  const PotLabels: map<string, string> :=
    map["very-cautious" := "Very Cautious Pot", "moderately-cautious" := "Moderately Cautious Pot",
        "balanced" := "Balanced Pot", "moderately-adventurous" := "Moderately Adventurous Pot",
        "adventurous" := "Adventurous Pot", "very-adventurous" := "Very Adventurous Pot"]

  /** Table lookup with a fallback for keys the table does not hold. */
  function LookupOr(table: map<string, string>, key: string, default: string): (r: string)
    ensures key in table ==> r == table[key]
    ensures key !in table ==> r == default
  {
    if key in table then table[key] else default
  }

  /** Upper-cases the ASCII letters a-z and leaves every other character alone. */
  function UpperChar(c: char): (u: char)
    ensures 'a' <= c <= 'z' ==> 'A' <= u <= 'Z' && u as int - 'A' as int == c as int - 'a' as int
    ensures !('a' <= c <= 'z') ==> u == c
    ensures !('a' <= u <= 'z')
  {
    if 'a' <= c <= 'z' then (c as int - 32) as char else c
  }

  function Upper(s: string): (u: string)
    ensures |u| == |s|
    ensures forall i :: 0 <= i < |s| ==>
              if 'a' <= s[i] <= 'z' then u[i] as int == s[i] as int - 32 else u[i] == s[i]
    ensures forall i :: 0 <= i < |u| ==> !('a' <= u[i] <= 'z')
  {
    seq(|s|, i requires 0 <= i < |s| => UpperChar(s[i]))
  }

  /** The by-type label: the key upper-cased. */
  function TypeLabel(key: string): (l: string)
    ensures |l| == |key|
    ensures forall i :: 0 <= i < |key| ==>
              if 'a' <= key[i] <= 'z' then l[i] as int == key[i] as int - 32 else l[i] == key[i]
    ensures forall i :: 0 <= i < |l| ==> !('a' <= l[i] <= 'z')
  {
    Upper(key)
  }

  /** The four by-type labels, written out. */
  lemma TypeLabelsOfNames()
    ensures TypeLabel(AssetTypeName(Stock)) == "STOCK"
    ensures TypeLabel(AssetTypeName(Fund)) == "FUND"
    ensures TypeLabel(AssetTypeName(Sipp)) == "SIPP"
    ensures TypeLabel(AssetTypeName(Cash)) == "CASH"
  {
  }

  /** The by-risk label: the table's name for the key, or the key itself. */
  function RiskLabel(key: string): (l: string)
    ensures key in RiskLabels ==> l == RiskLabels[key]
    ensures key !in RiskLabels ==> l == key
  {
    LookupOr(RiskLabels, key, key)
  }

  /** The by-pot label: the table's name for the key, or the key itself. */
  function PotLabel(key: string): (l: string)
    ensures key in PotLabels ==> l == PotLabels[key]
    ensures key !in PotLabels ==> l == key
  {
    LookupOr(PotLabels, key, key)
  }

  /** Distinct asset types get distinct labels, and the colour table covers every type. */
  lemma TypeLabelsDistinct()
    ensures forall t, u :: TypeLabel(AssetTypeName(t)) == TypeLabel(AssetTypeName(u)) ==> t == u
    ensures forall t :: AssetTypeName(t) in TypeColors
  {
    forall t, u | TypeLabel(AssetTypeName(t)) == TypeLabel(AssetTypeName(u)) ensures t == u {
      var a, b := AssetTypeName(t), AssetTypeName(u);
      assert TypeLabel(a)[0] == UpperChar(a[0]);
      assert TypeLabel(b)[0] == UpperChar(b[0]);
    }
  }

  /** Distinct risk profiles get distinct labels, and both tables cover every profile. */
  lemma RiskLabelsDistinct()
    ensures forall p :: RiskProfileName(p) in RiskLabels && RiskProfileName(p) in RiskColors
    ensures forall p, q :: RiskLabel(RiskProfileName(p)) == RiskLabel(RiskProfileName(q)) ==> p == q
  {
    forall p, q | RiskLabel(RiskProfileName(p)) == RiskLabel(RiskProfileName(q)) ensures p == q {
      assert |RiskLabel(RiskProfileName(p))| == |RiskLabel(RiskProfileName(q))|;
    }
  }

  /** Distinct pots get distinct labels, and both tables cover every pot. */
  lemma PotLabelsDistinct()
    ensures forall p :: RiskProfileName(p) in PotLabels && RiskProfileName(p) in PotColors
    ensures forall p, q :: PotLabel(RiskProfileName(p)) == PotLabel(RiskProfileName(q)) ==> p == q
  {
    forall p, q | PotLabel(RiskProfileName(p)) == PotLabel(RiskProfileName(q)) ensures p == q {
      assert |PotLabel(RiskProfileName(p))| == |PotLabel(RiskProfileName(q))|;
    }
  }

  // ---------------------------------------------------------------------
  // The three allocation views
  // ---------------------------------------------------------------------

  function ToAssetAllocations(gs: seq<Group>, total: real): (r: seq<AssetAllocation>)
    ensures |r| == |gs|
  {
    seq(|gs|, i requires 0 <= i < |gs| =>
      AssetAllocation(
        TypeLabel(gs[i].key),
        gs[i].bucket.value,
        Percentage(gs[i].bucket.value, total),
        LookupOr(TypeColors, gs[i].key, DefaultColor)))
  }

  function ToRiskAllocations(gs: seq<Group>, total: real): (r: seq<RiskAllocation>)
    ensures |r| == |gs|
  {
    seq(|gs|, i requires 0 <= i < |gs| =>
      RiskAllocation(
        RiskLabel(gs[i].key),
        gs[i].bucket.value,
        Percentage(gs[i].bucket.value, total),
        LookupOr(RiskColors, gs[i].key, DefaultColor)))
  }

  function ToPotAllocations(gs: seq<Group>, total: real): (r: seq<PotAllocation>)
    ensures |r| == |gs|
  {
    seq(|gs|, i requires 0 <= i < |gs| =>
      PotAllocation(
        PotLabel(gs[i].key),
        gs[i].bucket.value,
        Percentage(gs[i].bucket.value, total),
        LookupOr(PotColors, gs[i].key, DefaultColor),
        gs[i].bucket.assets))
  }

  /** The by-type view of the assets, as the one-pass grouping produces it. */
  function AssetAllocationsOf(assets: seq<Asset>): seq<AssetAllocation> {
    ToAssetAllocations(Entries(assets, TypeKey), PortfolioValue(assets))
  }

  function RiskAllocationsOf(assets: seq<Asset>): seq<RiskAllocation> {
    ToRiskAllocations(Entries(assets, RiskKey), PortfolioValue(assets))
  }

  function PotAllocationsOf(assets: seq<Asset>): seq<PotAllocation> {
    ToPotAllocations(Entries(assets, PotKey), PortfolioValue(assets))
  }

  method CalculateAssetAllocations(assets: seq<Asset>) returns (r: seq<AssetAllocation>)
    ensures r == AssetAllocationsOf(assets)
  {
    var totalValue := PortfolioValue(assets);
    var typeGroups := GroupAssets(assets, TypeKey);
    r := ToAssetAllocations(typeGroups, totalValue);
  }

  method CalculateRiskAllocations(assets: seq<Asset>) returns (r: seq<RiskAllocation>)
    ensures r == RiskAllocationsOf(assets)
  {
    var totalValue := PortfolioValue(assets);
    var riskGroups := GroupAssets(assets, RiskKey);
    r := ToRiskAllocations(riskGroups, totalValue);
  }

  method CalculatePotAllocations(assets: seq<Asset>) returns (r: seq<PotAllocation>)
    ensures r == PotAllocationsOf(assets)
  {
    var totalValue := PortfolioValue(assets);
    var potGroups := GroupAssets(assets, PotKey);
    r := ToPotAllocations(potGroups, totalValue);
  }

  ghost predicate IsTypeName(k: string) { exists t :: k == AssetTypeName(t) }
  ghost predicate IsProfileName(k: string) { exists q :: k == RiskProfileName(q) }

  /** Every by-type key is the name of an asset type. */
  lemma TypeKeysAreNames(assets: seq<Asset>)
    ensures forall i :: 0 <= i < |Keys(assets, TypeKey)| ==>
              IsTypeName(Keys(assets, TypeKey)[i])
  {
    forall i | 0 <= i < |Keys(assets, TypeKey)| ensures IsTypeName(Keys(assets, TypeKey)[i]) {
      KeyOfSomeAsset(assets, TypeKey, i);
      var p :| 0 <= p < |assets| && TypeKey(assets[p]) == Keys(assets, TypeKey)[i];
      assert Keys(assets, TypeKey)[i] == AssetTypeName(assets[p].assetType);
    }
  }

  /** Every by-risk key is the name of a risk profile. */
  lemma RiskKeysAreNames(assets: seq<Asset>)
    ensures forall i :: 0 <= i < |Keys(assets, RiskKey)| ==>
              IsProfileName(Keys(assets, RiskKey)[i])
  {
    forall i | 0 <= i < |Keys(assets, RiskKey)| ensures IsProfileName(Keys(assets, RiskKey)[i]) {
      KeyOfSomeAsset(assets, RiskKey, i);
      var p :| 0 <= p < |assets| && RiskKey(assets[p]) == Keys(assets, RiskKey)[i];
      assert Keys(assets, RiskKey)[i] == RiskProfileName(assets[p].riskProfile);
    }
  }

  /** Every by-pot key is the name of a pot. */
  lemma PotKeysAreNames(assets: seq<Asset>)
    ensures forall i :: 0 <= i < |Keys(assets, PotKey)| ==>
              IsProfileName(Keys(assets, PotKey)[i])
  {
    forall i | 0 <= i < |Keys(assets, PotKey)| ensures IsProfileName(Keys(assets, PotKey)[i]) {
      KeyOfSomeAsset(assets, PotKey, i);
      var p :| 0 <= p < |assets| && PotKey(assets[p]) == Keys(assets, PotKey)[i];
      assert Keys(assets, PotKey)[i] == RiskProfileName(assets[p].pot);
    }
  }

  /**
   * The by-type view has one row per distinct type, in first-seen order:
   * its upper-cased label, the summed value of that type's assets, its
   * share of the total and the table colour.
   */
  lemma AssetAllocationsRows(assets: seq<Asset>)
    ensures var r := AssetAllocationsOf(assets);
      && |r| == |Keys(assets, TypeKey)|
      && (assets == [] ==> r == [])
      && (forall i :: 0 <= i < |r| ==>
            var k := Keys(assets, TypeKey)[i];
            && r[i].assetType == TypeLabel(k)
            && r[i].value == PortfolioValue(Members(assets, TypeKey, k))
            && r[i].percentage == Percentage(r[i].value, PortfolioValue(assets))
            && k in TypeColors && r[i].color == TypeColors[k])
  {
    EntriesAt(assets, TypeKey);
    TypeKeysAreNames(assets);
    TypeLabelsDistinct();
  }

  /**
   * The by-type values add up to the total. The percentages add up to 100 over a
   * positive total, are all 0 otherwise, and lie in [0, 100] for non-negative values.
   */
  lemma AssetAllocationsTotals(assets: seq<Asset>)
    ensures var r := AssetAllocationsOf(assets);
      SumReals(seq(|r|, i requires 0 <= i < |r| => r[i].value)) == PortfolioValue(assets)
    ensures var r := AssetAllocationsOf(assets);
      PortfolioValue(assets) > 0.0 ==>
        SumReals(seq(|r|, i requires 0 <= i < |r| => r[i].percentage)) == 100.0
    ensures var r := AssetAllocationsOf(assets);
      PortfolioValue(assets) <= 0.0 ==> forall i :: 0 <= i < |r| ==> r[i].percentage == 0.0
    ensures var r := AssetAllocationsOf(assets);
      (forall p :: 0 <= p < |assets| ==> assets[p].value >= 0.0) ==>
        forall i :: 0 <= i < |r| ==> 0.0 <= r[i].percentage <= 100.0
  {
    var r := AssetAllocationsOf(assets);
    var gs := Entries(assets, TypeKey);
    EntriesValueSum(assets, TypeKey);
    EntriesShares(assets, TypeKey);
    assert seq(|r|, i requires 0 <= i < |r| => r[i].value) == GroupValues(gs);
    assert seq(|r|, i requires 0 <= i < |r| => r[i].percentage)
        == Shares(GroupValues(gs), PortfolioValue(assets));
    forall i | 0 <= i < |r| ensures r[i].percentage == Shares(GroupValues(gs), PortfolioValue(assets))[i] {
    }
  }

  /** No two rows of the by-type view share a label. */
  lemma AssetAllocationsLabelsDistinct(assets: seq<Asset>)
    ensures var r := AssetAllocationsOf(assets);
      forall i, j :: 0 <= i < j < |r| ==> r[i].assetType != r[j].assetType
  {
    EntriesAt(assets, TypeKey);
    TypeLabelsDistinct();
    KeysDistinct(assets, TypeKey);
    TypeKeysAreNames(assets);
  }

  /** The by-risk view: one row per distinct risk profile with its table label and colour. */
  lemma RiskAllocationsRows(assets: seq<Asset>)
    ensures var r := RiskAllocationsOf(assets);
      && |r| == |Keys(assets, RiskKey)|
      && (assets == [] ==> r == [])
      && (forall i :: 0 <= i < |r| ==>
            var k := Keys(assets, RiskKey)[i];
            && k in RiskLabels && k in RiskColors
            && r[i].riskProfile == RiskLabels[k]
            && r[i].value == PortfolioValue(Members(assets, RiskKey, k))
            && r[i].percentage == Percentage(r[i].value, PortfolioValue(assets))
            && r[i].color == RiskColors[k])
  {
    EntriesAt(assets, RiskKey);
    RiskKeysAreNames(assets);
    RiskLabelsDistinct();
  }

  /**
   * The by-risk values add up to the total. The percentages add up to 100 over a
   * positive total, are all 0 otherwise, and lie in [0, 100] for non-negative values.
   */
  lemma RiskAllocationsTotals(assets: seq<Asset>)
    ensures var r := RiskAllocationsOf(assets);
      SumReals(seq(|r|, i requires 0 <= i < |r| => r[i].value)) == PortfolioValue(assets)
    ensures var r := RiskAllocationsOf(assets);
      PortfolioValue(assets) > 0.0 ==>
        SumReals(seq(|r|, i requires 0 <= i < |r| => r[i].percentage)) == 100.0
    ensures var r := RiskAllocationsOf(assets);
      PortfolioValue(assets) <= 0.0 ==> forall i :: 0 <= i < |r| ==> r[i].percentage == 0.0
    ensures var r := RiskAllocationsOf(assets);
      (forall p :: 0 <= p < |assets| ==> assets[p].value >= 0.0) ==>
        forall i :: 0 <= i < |r| ==> 0.0 <= r[i].percentage <= 100.0
  {
    var r := RiskAllocationsOf(assets);
    var gs := Entries(assets, RiskKey);
    EntriesValueSum(assets, RiskKey);
    EntriesShares(assets, RiskKey);
    assert seq(|r|, i requires 0 <= i < |r| => r[i].value) == GroupValues(gs);
    assert seq(|r|, i requires 0 <= i < |r| => r[i].percentage)
        == Shares(GroupValues(gs), PortfolioValue(assets));
    forall i | 0 <= i < |r| ensures r[i].percentage == Shares(GroupValues(gs), PortfolioValue(assets))[i] {
    }
  }

  /** No two rows of the by-risk view share a label. */
  lemma RiskAllocationsLabelsDistinct(assets: seq<Asset>)
    ensures var r := RiskAllocationsOf(assets);
      forall i, j :: 0 <= i < j < |r| ==> r[i].riskProfile != r[j].riskProfile
  {
    EntriesAt(assets, RiskKey);
    RiskLabelsDistinct();
    KeysDistinct(assets, RiskKey);
    RiskKeysAreNames(assets);
  }

  /** The by-pot view: one row per distinct pot with its table label and colour. */
  lemma PotAllocationsRows(assets: seq<Asset>)
    ensures var r := PotAllocationsOf(assets);
      && |r| == |Keys(assets, PotKey)|
      && (assets == [] ==> r == [])
      && (forall i :: 0 <= i < |r| ==>
            var k := Keys(assets, PotKey)[i];
            && k in PotLabels && k in PotColors
            && r[i].pot == PotLabels[k]
            && r[i].value == PortfolioValue(r[i].assets)
            && r[i].percentage == Percentage(r[i].value, PortfolioValue(assets))
            && r[i].color == PotColors[k])
  {
    EntriesAt(assets, PotKey);
    PotKeysAreNames(assets);
    PotLabelsDistinct();
  }

  /**
   * The by-pot values add up to the total. The percentages add up to 100 over a
   * positive total, are all 0 otherwise, and lie in [0, 100] for non-negative values.
   */
  lemma PotAllocationsTotals(assets: seq<Asset>)
    ensures var r := PotAllocationsOf(assets);
      SumReals(seq(|r|, i requires 0 <= i < |r| => r[i].value)) == PortfolioValue(assets)
    ensures var r := PotAllocationsOf(assets);
      PortfolioValue(assets) > 0.0 ==>
        SumReals(seq(|r|, i requires 0 <= i < |r| => r[i].percentage)) == 100.0
    ensures var r := PotAllocationsOf(assets);
      PortfolioValue(assets) <= 0.0 ==> forall i :: 0 <= i < |r| ==> r[i].percentage == 0.0
    ensures var r := PotAllocationsOf(assets);
      (forall p :: 0 <= p < |assets| ==> assets[p].value >= 0.0) ==>
        forall i :: 0 <= i < |r| ==> 0.0 <= r[i].percentage <= 100.0
  {
    var r := PotAllocationsOf(assets);
    var gs := Entries(assets, PotKey);
    EntriesValueSum(assets, PotKey);
    EntriesShares(assets, PotKey);
    assert seq(|r|, i requires 0 <= i < |r| => r[i].value) == GroupValues(gs);
    assert seq(|r|, i requires 0 <= i < |r| => r[i].percentage)
        == Shares(GroupValues(gs), PortfolioValue(assets));
    forall i | 0 <= i < |r| ensures r[i].percentage == Shares(GroupValues(gs), PortfolioValue(assets))[i] {
    }
  }

  /** No two rows of the by-pot view share a label. */
  lemma PotAllocationsLabelsDistinct(assets: seq<Asset>)
    ensures var r := PotAllocationsOf(assets);
      forall i, j :: 0 <= i < j < |r| ==> r[i].pot != r[j].pot
  {
    EntriesAt(assets, PotKey);
    PotLabelsDistinct();
    KeysDistinct(assets, PotKey);
    PotKeysAreNames(assets);
  }

  /**
   * The member lists of the by-pot view partition the input: group i
   * holds exactly the assets whose pot is its key, in input order, and
   * together the groups hold every asset exactly once.
   */
  lemma PotAllocationsPartition(assets: seq<Asset>)
    ensures var r := PotAllocationsOf(assets);
      && (forall i :: 0 <= i < |r| ==> r[i].assets == Members(assets, PotKey, Keys(assets, PotKey)[i]))
      && (forall i, x :: 0 <= i < |r| && x in r[i].assets ==> RiskProfileName(x.pot) == Keys(assets, PotKey)[i])
      && multiset(Flatten(Entries(assets, PotKey))) == multiset(assets)
  {
    var r := PotAllocationsOf(assets);
    var gs := Entries(assets, PotKey);
    EntriesAt(assets, PotKey);
    EntriesPartition(assets, PotKey);
    forall i, x | 0 <= i < |r| && x in r[i].assets
      ensures RiskProfileName(x.pot) == Keys(assets, PotKey)[i]
    {
      assert r[i].assets == Members(assets, PotKey, Keys(assets, PotKey)[i]);
      MembersCarryKey(assets, PotKey, Keys(assets, PotKey)[i]);
    }
  }

  // ---------------------------------------------------------------------
  // Per-asset allocation and the portfolio record
  // ---------------------------------------------------------------------

  /** Each asset with `allocation` set to its percentage share of the total. */
  function UpdateAssetAllocations(assets: seq<Asset>): (r: seq<Asset>)
    ensures |r| == |assets|
    ensures forall i :: 0 <= i < |r| ==> r[i].(allocation := assets[i].allocation) == assets[i]
    ensures forall i :: 0 <= i < |r| ==>
              r[i].allocation == Some(Percentage(assets[i].value, PortfolioValue(assets)))
  {
    var totalValue := PortfolioValue(assets);
    seq(|assets|, i requires 0 <= i < |assets| =>
      assets[i].(allocation := Some(Percentage(assets[i].value, totalValue))))
  }

  /** The allocation figures of a list of assets, a missing one read as 0. */
  function Allocations(assets: seq<Asset>): (xs: seq<real>)
    ensures |xs| == |assets|
  {
    seq(|assets|, i requires 0 <= i < |assets| => assets[i].allocation.GetOr(0.0))
  }

  /** Attaching allocations changes no value, so the total is unchanged. */
  lemma {:induction false} UpdateKeepsTotal(assets: seq<Asset>)
    ensures PortfolioValue(UpdateAssetAllocations(assets)) == PortfolioValue(assets)
  {
    var r := UpdateAssetAllocations(assets);
    PortfolioValueIsSumOfValues(assets);
    PortfolioValueIsSumOfValues(r);
    assert Values(r) == Values(assets);
  }

  /** Per-asset allocations sum to 100 over a positive total, are all 0 otherwise, and lie in [0, 100] for non-negative values. */
  lemma UpdateAllocationsShares(assets: seq<Asset>)
    ensures PortfolioValue(assets) > 0.0 ==> SumReals(Allocations(UpdateAssetAllocations(assets))) == 100.0
    ensures PortfolioValue(assets) <= 0.0 ==>
              forall i :: 0 <= i < |assets| ==> UpdateAssetAllocations(assets)[i].allocation == Some(0.0)
    ensures (forall p :: 0 <= p < |assets| ==> assets[p].value >= 0.0) ==>
              forall i :: 0 <= i < |assets| ==> 0.0 <= Allocations(UpdateAssetAllocations(assets))[i] <= 100.0
  {
    var total := PortfolioValue(assets);
    var xs := Values(assets);
    var alloc := Allocations(UpdateAssetAllocations(assets));
    assert alloc == Shares(xs, total);
    PortfolioValueIsSumOfValues(assets);
    if total > 0.0 {
      SharesOfWhole(xs, total);
    }
    if forall p :: 0 <= p < |assets| ==> assets[p].value >= 0.0 {
      forall i | 0 <= i < |xs| ensures 0.0 <= xs[i] <= total {
        SumRealsBound(xs, i);
      }
      SharesBounded(xs, total);
    }
  }

  /** Attaching allocations twice gives the same list as attaching them once. */
  lemma UpdateIdempotent(assets: seq<Asset>)
    ensures UpdateAssetAllocations(UpdateAssetAllocations(assets)) == UpdateAssetAllocations(assets)
  {
    UpdateKeepsTotal(assets);
  }

  /** The portfolio record; the source's timestamp field is not modelled. */
  function CreatePortfolio(assets: seq<Asset>): (p: Portfolio)
    ensures p.assets == UpdateAssetAllocations(assets)
    ensures p.totalValue == PortfolioValue(assets)
    ensures p.totalValue == PortfolioValue(p.assets)
    ensures p.riskProfile == None
  {
    UpdateKeepsTotal(assets);
    Portfolio(PortfolioValue(assets), UpdateAssetAllocations(assets), None)
  }
}
