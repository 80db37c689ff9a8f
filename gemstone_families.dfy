/** The administrators' gemstone-family page: a count of families per category
    for the summary cards, of which the first three are shown, the badge colour
    of a value category, and the hardness column. */
module GemstoneFamiliesPage {
  import opened Wrappers
  import opened JsValues
  import opened Seqs
  import opened ReferenceDataStore

  const Uncategorized := "Uncategorized"

  /** `family.category || 'Uncategorized'`. */
  function CategoryKey(f: FamilyRow): string {
    if TruthyOptString(f.fields.category) then f.fields.category.value else Uncategorized
  }

  /** The families counted under `key`. */
  function HasKey(key: string): FamilyRow -> bool {
    (f: FamilyRow) => CategoryKey(f) == key
  }

  /** `counts[k] || 0`. */
  function Get(m: map<string, nat>, k: string): nat {
    if k in m then m[k] else 0
  }

  /** The `counts` object after the loop has visited `fs`. */
  function CountsOf(fs: seq<FamilyRow>): map<string, nat> {
    if fs == [] then map[]
    else
      var m := CountsOf(fs[..|fs| - 1]);
      var k := CategoryKey(fs[|fs| - 1]);
      m[k := Get(m, k) + 1]
  }

  /** The object's keys in the order they were first assigned, the order
      `Object.entries` lists them. */
  function KeysInOrder(fs: seq<FamilyRow>): seq<string> {
    if fs == [] then []
    else
      var keys := KeysInOrder(fs[..|fs| - 1]);
      var k := CategoryKey(fs[|fs| - 1]);
      if k in keys then keys else keys + [k]
  }

  /** `getCategoryCounts`: one pass over the families, adding one to the count
      of each family's category. `order` is the key order of the `counts`
      object. */
  method GetCategoryCounts(families: seq<FamilyRow>) returns (counts: map<string, nat>, order: seq<string>)
    ensures counts == CountsOf(families) && order == KeysInOrder(families)
  {
    counts, order := map[], [];
    for i := 0 to |families|
      invariant counts == CountsOf(families[..i]) && order == KeysInOrder(families[..i])
    {
      assert families[..i + 1][..i] == families[..i];
      KeysAgree(families[..i]);
      var category := CategoryKey(families[i]);
      if category !in counts {
        order := order + [category];
      }
      counts := counts[category := Get(counts, category) + 1];
    }
    assert families[..|families|] == families;
  }

  /** The counted keys are the listed keys, and none is listed twice. */
  lemma {:induction false} KeysAgree(fs: seq<FamilyRow>)
    ensures forall k :: k in CountsOf(fs) <==> k in KeysInOrder(fs)
    ensures forall i, j :: 0 <= i < j < |KeysInOrder(fs)| ==> KeysInOrder(fs)[i] != KeysInOrder(fs)[j]
  {
    if fs != [] {
      KeysAgree(fs[..|fs| - 1]);
    }
  }

  /** Each count is the number of families in that category, and a key that
      is counted at all has count at least one. */
  lemma {:induction false} CountsByCategory(fs: seq<FamilyRow>)
    ensures forall k :: Get(CountsOf(fs), k) == |Filter(fs, HasKey(k))|
    ensures forall k :: k in CountsOf(fs) ==> CountsOf(fs)[k] >= 1
  {
    if fs != [] {
      var init, last := fs[..|fs| - 1], fs[|fs| - 1];
      CountsByCategory(init);
      assert fs == init + [last];
      forall k ensures Get(CountsOf(fs), k) == |Filter(fs, HasKey(k))| {
        FilterConcat(init, [last], HasKey(k));
      }
    }
  }

  /** A key is counted exactly when some family falls under it. */
  lemma KeysPresent(fs: seq<FamilyRow>)
    ensures forall k :: k in CountsOf(fs) <==> exists i :: 0 <= i < |fs| && CategoryKey(fs[i]) == k
  {
    CountsByCategory(fs);
    forall k | k in CountsOf(fs) ensures exists i :: 0 <= i < |fs| && CategoryKey(fs[i]) == k {
      var f := Filter(fs, HasKey(k))[0];
      assert f in fs && HasKey(k)(f);
    }
    forall k | exists i :: 0 <= i < |fs| && CategoryKey(fs[i]) == k ensures k in CountsOf(fs) {
      var i :| 0 <= i < |fs| && CategoryKey(fs[i]) == k;
      assert HasKey(k)(fs[i]);
      assert fs[i] in Filter(fs, HasKey(k));
    }
  }

  /** The counts of `keys`, in order. */
  function SumOver(keys: seq<string>, m: map<string, nat>): nat {
    if keys == [] then 0 else SumOver(keys[..|keys| - 1], m) + Get(m, keys[|keys| - 1])
  }

  /** Changing the count of a key not listed leaves the sum alone. */
  lemma {:induction false} SumOverOther(keys: seq<string>, m: map<string, nat>, k: string, v: nat)
    requires k !in keys
    ensures SumOver(keys, m[k := v]) == SumOver(keys, m)
  {
    if keys != [] {
      SumOverOther(keys[..|keys| - 1], m, k, v);
    }
  }

  /** Adding one to the count of a key listed once adds one to the sum. */
  lemma {:induction false} SumOverIncrement(keys: seq<string>, m: map<string, nat>, k: string)
    requires k in keys
    requires forall i, j :: 0 <= i < j < |keys| ==> keys[i] != keys[j]
    ensures SumOver(keys, m[k := Get(m, k) + 1]) == SumOver(keys, m) + 1
  {
    var init := keys[..|keys| - 1];
    if keys[|keys| - 1] == k {
      assert k !in init by {
        forall i | 0 <= i < |init| ensures init[i] != k {
          assert keys[i] == init[i];
        }
      }
      SumOverOther(init, m, k, Get(m, k) + 1);
    } else {
      assert k in init by {
        var i :| 0 <= i < |keys| && keys[i] == k;
        assert init[i] == k;
      }
      SumOverIncrement(init, m, k);
    }
  }

  /** The counts add up to the number of families. */
  lemma {:induction false} CountsSum(fs: seq<FamilyRow>)
    ensures SumOver(KeysInOrder(fs), CountsOf(fs)) == |fs|
  {
    if fs != [] {
      var init := fs[..|fs| - 1];
      var keys, m, k := KeysInOrder(init), CountsOf(init), CategoryKey(fs[|fs| - 1]);
      CountsSum(init);
      KeysAgree(init);
      if k in keys {
        SumOverIncrement(keys, m, k);
      } else {
        assert k !in m;
        assert (keys + [k])[..|keys|] == keys;
        SumOverOther(keys, m, k, 1);
      }
    }
  }

  /** `Object.entries(getCategoryCounts())`. */
  function Entries(fs: seq<FamilyRow>): seq<(string, nat)> {
    var keys := KeysInOrder(fs);
    seq(|keys|, i requires 0 <= i < |keys| => (keys[i], Get(CountsOf(fs), keys[i])))
  }

  /** `.slice(0, 3)`. */
  function SummaryCards(fs: seq<FamilyRow>): seq<(string, nat)> {
    var entries := Entries(fs);
    if |entries| <= 3 then entries else entries[..3]
  }

  /** At most three category cards appear: the first categories met, each once,
      each with its number of families, never zero. */
  lemma SummaryCardsShape(fs: seq<FamilyRow>)
    ensures |SummaryCards(fs)| <= 3
    ensures |SummaryCards(fs)| == if |KeysInOrder(fs)| <= 3 then |KeysInOrder(fs)| else 3
    ensures forall i :: 0 <= i < |SummaryCards(fs)| ==>
      SummaryCards(fs)[i].0 == KeysInOrder(fs)[i]
      && SummaryCards(fs)[i].1 == |Filter(fs, HasKey(SummaryCards(fs)[i].0))|
      && SummaryCards(fs)[i].1 >= 1
  {
    CountsByCategory(fs);
    KeysAgree(fs);
  }

  /** `getValueCategoryColor`. */
  function ValueCategoryColor(category: Option<string>): (classes: string)
    ensures classes in {"bg-gemstone-red text-white", "bg-gemstone-blue text-white",
                        "bg-gemstone-green text-white", "bg-gray-200 text-gray-700"}
    ensures classes == "bg-gray-200 text-gray-700"
        <==> category != Some("Precious") && category != Some("Semi-precious") && category != Some("Ornamental")
  {
    match category
    case Some("Precious") => "bg-gemstone-red text-white"
    case Some("Semi-precious") => "bg-gemstone-blue text-white"
    case Some("Ornamental") => "bg-gemstone-green text-white"
    case _ => "bg-gray-200 text-gray-700"
  }

  /** The hardness cell: the two bounds, or `N/A`. */
  datatype HardnessCell = Range(min: real, max: real) | NotAvailable

  /** `family.hardness_min && family.hardness_max ? ... : 'N/A'`: a bound of 0
      is as good as missing. */
  function HardnessDisplay(f: FamilyRow): (cell: HardnessCell)
    ensures cell.Range? <==>
      f.fields.hardnessMin.Some? && f.fields.hardnessMin.value != 0.0
      && f.fields.hardnessMax.Some? && f.fields.hardnessMax.value != 0.0
    ensures cell.Range? ==> Some(cell.min) == f.fields.hardnessMin && Some(cell.max) == f.fields.hardnessMax
  {
    match (f.fields.hardnessMin, f.fields.hardnessMax)
    case (Some(lo), Some(hi)) => if lo != 0.0 && hi != 0.0 then Range(lo, hi) else NotAvailable
    case _ => NotAvailable
  }
}
