/** The property-details step: how the property type decides which inputs are shown and which
    features are offered, and the checkbox toggle that edits the feature list. */
module Details {
  import opened Types

  predicate IsLand(t: PropertyType) { t == Land }

  predicate IsOther(t: PropertyType) { t == OtherProperty }

  /** Anything that is neither land nor "other" counts as a building; construction year, floor,
      condition and the residential-permit switch are shown for buildings only. */
  predicate IsBuilding(t: PropertyType) { !IsLand(t) && !IsOther(t) }

  /** The three building types are exactly residence, office and store. */
  lemma BuildingIff(t: PropertyType)
    ensures IsBuilding(t) <==> t == Residence || t == Office || t == Store
    ensures IsBuilding(t) || IsLand(t) || IsOther(t)
  {
  }

  /** The feature checkboxes are shown for everything but "other". */
  predicate ShowsFeatures(t: PropertyType) { !IsOther(t) }

  /** The features offered as checkboxes, in display order. */
  function Vocabulary(t: PropertyType): (r: seq<PropertyFeature>)
    ensures IsLand(t) ==> |r| == 7
    ensures IsOther(t) ==> r == []
    ensures IsBuilding(t) ==> |r| == 10 && r == AllFeatures[..10]
    ensures ShowsFeatures(t) <==> r != []
  {
    if IsLand(t) then [View, CornerPlot, NearSea, Buildable, UtilitiesConnected, Fenced, Parking]
    else if IsOther(t) then []
    else [Parking, Balcony, Garden, Elevator, Storage, SecurityDoor, Alarm, SolarWaterHeater, Fireplace, AirConditioning]
  }

  /** Each vocabulary lists a feature at most once. */
  lemma VocabularyDistinct(t: PropertyType)
    ensures Distinct(Vocabulary(t))
  {
    FeatureValues();
    if IsLand(t) {
      var v := Vocabulary(t);
      forall i, j | 0 <= i < j < |v| ensures v[i] != v[j] {
      }
    }
  }

  /** Land and buildings share only the parking feature, and between them they offer every
      feature there is: the first ten features belong to buildings, the last six to land. */
  lemma VocabulariesPartition(f: PropertyFeature)
    ensures f in Vocabulary(Land) && f in Vocabulary(Residence) <==> f == Parking
    ensures f in Vocabulary(Land) || f in Vocabulary(Residence)
    ensures f in Vocabulary(Residence) <==> f in AllFeatures[..10]
  {
    match f
    case Parking =>
    case Balcony =>
    case Garden =>
    case Elevator =>
    case Storage =>
    case SecurityDoor =>
    case Alarm =>
    case SolarWaterHeater =>
    case Fireplace =>
    case AirConditioning =>
    case View =>
    case CornerPlot =>
    case NearSea =>
    case Buildable =>
    case UtilitiesConnected =>
    case Fenced =>
  }

  /** `fs.filter(g => g !== f)`: every occurrence of `f` dropped, the rest kept in order. */
  function Remove(fs: seq<PropertyFeature>, f: PropertyFeature): (r: seq<PropertyFeature>)
    ensures |r| <= |fs|
    ensures f !in r
    ensures forall g :: g != f ==> (g in r <==> g in fs)
    ensures f !in fs ==> r == fs
  {
    if |fs| == 0 then []
    else if fs[0] == f then Remove(fs[1..], f)
    else [fs[0]] + Remove(fs[1..], f)
  }

  /** Removing distributes over concatenation. */
  lemma {:induction false} RemoveAppend(a: seq<PropertyFeature>, b: seq<PropertyFeature>, f: PropertyFeature)
    ensures Remove(a + b, f) == Remove(a, f) + Remove(b, f)
  {
    if |a| == 0 {
      assert a + b == b;
    } else {
      assert (a + b)[1..] == a[1..] + b;
      RemoveAppend(a[1..], b, f);
    }
  }

  /** Removing keeps a list free of repeats. */
  lemma {:induction false} RemoveDistinct(fs: seq<PropertyFeature>, f: PropertyFeature)
    requires Distinct(fs)
    ensures Distinct(Remove(fs, f))
  {
    if |fs| > 0 {
      assert Distinct(fs[1..]) by {
        forall i, j | 0 <= i < j < |fs[1..]| ensures fs[1..][i] != fs[1..][j] {
          assert fs[1..][i] == fs[i + 1] && fs[1..][j] == fs[j + 1];
        }
      }
      RemoveDistinct(fs[1..], f);
      if fs[0] != f {
        assert fs[0] !in fs[1..] by {
          forall k | 0 <= k < |fs[1..]| ensures fs[1..][k] != fs[0] {
            assert fs[1..][k] == fs[k + 1];
          }
        }
        var rest := Remove(fs[1..], f);
        var r := [fs[0]] + rest;
        forall i, j | 0 <= i < j < |r| ensures r[i] != r[j] {
          if i == 0 {
            assert r[j] == rest[j - 1];
            assert rest[j - 1] in rest;
          } else {
            assert r[i] == rest[i - 1] && r[j] == rest[j - 1];
          }
        }
      }
    }
  }

  /** The checkbox handler: drop the feature when it is listed, append it otherwise. */
  function Toggle(fs: seq<PropertyFeature>, f: PropertyFeature): (r: seq<PropertyFeature>)
    ensures f in r <==> f !in fs
    ensures forall g :: g != f ==> (g in r <==> g in fs)
    ensures f !in fs ==> r == fs + [f]
  {
    if f in fs then Remove(fs, f) else fs + [f]
  }

  /** Toggling a feature twice restores a list that lacked it, and moves a listed feature to the
      end (dropping any duplicates of it) for a list that had it. */
  lemma ToggleTwice(fs: seq<PropertyFeature>, f: PropertyFeature)
    ensures f !in fs ==> Toggle(Toggle(fs, f), f) == fs
    ensures f in fs ==> Toggle(Toggle(fs, f), f) == Remove(fs, f) + [f]
  {
    if f !in fs {
      assert f in fs + [f];
      RemoveAppend(fs, [f], f);
      assert Remove([f], f) == [];
      assert fs + [] == fs;
    }
  }

  /** Whatever the order of the clicks, the features listed after a toggle differ from the
      features listed before only in `f`. */
  lemma ToggleThenRemove(fs: seq<PropertyFeature>, f: PropertyFeature)
    ensures Remove(Toggle(fs, f), f) == Remove(fs, f)
  {
    if f !in fs {
      RemoveAppend(fs, [f], f);
      assert Remove([f], f) == [];
      assert Remove(fs, f) + [] == Remove(fs, f);
    }
  }

  /** Toggling an offered feature keeps the list within the offered vocabulary and free of
      repeats. */
  lemma ToggleStaysInVocabulary(fs: seq<PropertyFeature>, f: PropertyFeature, t: PropertyType)
    requires forall g :: g in fs ==> g in Vocabulary(t)
    requires Distinct(fs)
    requires f in Vocabulary(t)
    ensures forall g :: g in Toggle(fs, f) ==> g in Vocabulary(t)
    ensures Distinct(Toggle(fs, f))
  {
    if f in fs {
      RemoveDistinct(fs, f);
    } else {
      var r := fs + [f];
      forall i, j | 0 <= i < j < |r| ensures r[i] != r[j] {
        if j == |fs| {
          assert r[i] == fs[i];
        } else {
          assert r[i] == fs[i] && r[j] == fs[j];
        }
      }
    }
  }
}
