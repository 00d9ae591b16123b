/**
 * The search filter panel (src/components/dashboard/SearchFilters.tsx): the filter record,
 * its edits, the active-filter count, clearing, the quick size presets and the removable
 * badges.
 */
module SearchFilters {
  import opened Common
  import opened Api

  datatype Field = Filename | MimeType | MinSizeBytes | MaxSizeBytes | StartDate | EndDate

  function Get(p: SearchParams, f: Field): ParamValue
  {
    match f
    case Filename => p.filename
    case MimeType => p.mimeType
    case MinSizeBytes => p.minSizeBytes
    case MaxSizeBytes => p.maxSizeBytes
    case StartDate => p.startDate
    case EndDate => p.endDate
  }

  /** `{ ...prev, [field]: value }` */
  function With(p: SearchParams, f: Field, v: ParamValue): (r: SearchParams)
    ensures Get(r, f) == v
    ensures forall g :: g != f ==> Get(r, g) == Get(p, g)
  {
    match f
    case Filename => p.(filename := v)
    case MimeType => p.(mimeType := v)
    case MinSizeBytes => p.(minSizeBytes := v)
    case MaxSizeBytes => p.(maxSizeBytes := v)
    case StartDate => p.(startDate := v)
    case EndDate => p.(endDate := v)
  }

  /** handleInputChange stores undefined for "" and the value as given otherwise. */
  function NormalizeInput(v: ParamValue): (r: ParamValue)
    ensures r == Undefined <==> v == Undefined || v == Str("")
    ensures r != Undefined ==> r == v
  {
    if v == Str("") then Undefined else v
  }

  /** The record the panel starts with, and the one clearFilters restores and submits. */
  const Initial: SearchParams :=
    SearchParams(Str(""), Str(""), Undefined, Undefined, Str(""), Str(""))

  // ----- active filters -----

  /** The filter used by hasActiveFilters and getActiveFilterCount: neither "" nor undefined. */
  predicate IsActive(v: ParamValue)
  {
    v != Str("") && v != Undefined
  }

  /** The number of active values among `es`, in Object.values order. */
  function CountActive(es: seq<(string, ParamValue)>): (n: nat)
    ensures n <= |es|
  {
    if es == [] then 0
    else CountActive(es[..|es| - 1]) + (if IsActive(es[|es| - 1].1) then 1 else 0)
  }

  /** getActiveFilterCount. */
  function ActiveCount(p: SearchParams): (n: nat)
    ensures n <= 6
  {
    CountActive(Entries(p))
  }

  /** hasActiveFilters: `Object.values(filters).some(...)`. */
  predicate HasActiveFilters(p: SearchParams)
  {
    exists f: Field :: IsActive(Get(p, f))
  }

  lemma {:induction false} CountActivePositive(es: seq<(string, ParamValue)>)
    ensures CountActive(es) > 0 <==> exists i :: 0 <= i < |es| && IsActive(es[i].1)
  {
    if es != [] {
      var init := es[..|es| - 1];
      CountActivePositive(init);
      if exists i :: 0 <= i < |init| && IsActive(init[i].1) {
        var i :| 0 <= i < |init| && IsActive(init[i].1);
        assert es[i] == init[i];
      }
      if exists i :: 0 <= i < |es| && IsActive(es[i].1) {
        var i :| 0 <= i < |es| && IsActive(es[i].1);
        if i < |init| {
          assert es[i] == init[i];
        }
      }
    }
  }

  /** The panel shows its active filters exactly when the count is positive. */
  lemma HasActiveIffCount(p: SearchParams)
    ensures HasActiveFilters(p) <==> ActiveCount(p) > 0
  {
    var es := Entries(p);
    CountActivePositive(es);
    if HasActiveFilters(p) {
      var f: Field :| IsActive(Get(p, f));
      var i := match f
        case Filename => 0 case MimeType => 1 case MinSizeBytes => 2
        case MaxSizeBytes => 3 case StartDate => 4 case EndDate => 5;
      assert es[i].1 == Get(p, f);
    }
    if ActiveCount(p) > 0 {
      var i :| 0 <= i < |es| && IsActive(es[i].1);
      var f := [Filename, MimeType, MinSizeBytes, MaxSizeBytes, StartDate, EndDate][i];
      assert es[i].1 == Get(p, f);
    }
  }

  /** Without null values the count is the number of entries the search request carries. */
  lemma {:induction false} CountMatchesQuery(es: seq<(string, ParamValue)>)
    requires forall i :: 0 <= i < |es| ==> es[i].1 != Null
    ensures |SearchQuery(es)| == CountActive(es)
  {
    if es != [] {
      CountMatchesQuery(es[..|es| - 1]);
    }
  }

  lemma ActiveCountIsQuerySize(p: SearchParams)
    requires forall f :: Get(p, f) != Null
    ensures |SearchQuery(Entries(p))| == ActiveCount(p)
  {
    var es := Entries(p);
    assert forall i :: 0 <= i < |es| ==>
      es[i].1 == Get(p, [Filename, MimeType, MinSizeBytes, MaxSizeBytes, StartDate, EndDate][i]);
    CountMatchesQuery(es);
  }

  lemma InitialHasNoActiveFilter()
    ensures ActiveCount(Initial) == 0
    ensures !HasActiveFilters(Initial)
    ensures SearchQuery(Entries(Initial)) == []
  {
    HasActiveIffCount(Initial);
    SearchQueryEmpty(Entries(Initial));
  }

  function Indicator(v: ParamValue): nat
  {
    if IsActive(v) then 1 else 0
  }

  /** The count field by field. */
  lemma ActiveCountByField(p: SearchParams)
    ensures ActiveCount(p) == Indicator(p.filename) + Indicator(p.mimeType) + Indicator(p.minSizeBytes)
                              + Indicator(p.maxSizeBytes) + Indicator(p.startDate) + Indicator(p.endDate)
  {
    var es := Entries(p);
    assert es[..1][..0] == [];
    assert CountActive(es[..1]) == Indicator(p.filename);
    assert es[..2][..1] == es[..1];
    assert CountActive(es[..2]) == CountActive(es[..1]) + Indicator(p.mimeType);
    assert es[..3][..2] == es[..2];
    assert CountActive(es[..3]) == CountActive(es[..2]) + Indicator(p.minSizeBytes);
    assert es[..4][..3] == es[..3];
    assert CountActive(es[..4]) == CountActive(es[..3]) + Indicator(p.maxSizeBytes);
    assert es[..5][..4] == es[..4];
    assert CountActive(es[..5]) == CountActive(es[..4]) + Indicator(p.startDate);
    assert es[..5] == es[..|es| - 1];
  }

  /** Storing a value can change the count by the changed field alone. */
  lemma ActiveCountAfterWith(p: SearchParams, f: Field, v: ParamValue)
    ensures ActiveCount(With(p, f, v)) == ActiveCount(p) - Indicator(Get(p, f)) + Indicator(v)
  {
    ActiveCountByField(p);
    ActiveCountByField(With(p, f, v));
  }

  // ----- quick size presets -----

  const OneMiB: int := 1024 * 1024
  const TenMiB: int := 10 * 1024 * 1024

  datatype SizePreset = Under1MB | From1MBTo10MB | Over10MB

  /** The (min_size_bytes, max_size_bytes) pair a preset button stores. */
  function PresetBounds(preset: SizePreset): (bounds: (ParamValue, ParamValue))
    ensures bounds.0 == Undefined || bounds.1 == Undefined ||
            (bounds.0.Num? && bounds.1.Num? && bounds.0.n < bounds.1.n)
  {
    match preset
    case Under1MB => (Undefined, Num(OneMiB))
    case From1MBTo10MB => (Num(OneMiB), Num(TenMiB))
    case Over10MB => (Num(TenMiB), Undefined)
  }

  function ApplyPreset(p: SearchParams, preset: SizePreset): (r: SearchParams)
    ensures r.minSizeBytes == PresetBounds(preset).0 && r.maxSizeBytes == PresetBounds(preset).1
    ensures forall f :: f != MinSizeBytes && f != MaxSizeBytes ==> Get(r, f) == Get(p, f)
  {
    p.(minSizeBytes := PresetBounds(preset).0, maxSizeBytes := PresetBounds(preset).1)
  }

  lemma PresetValues()
    ensures OneMiB == 1048576 && TenMiB == 10485760
    ensures PresetBounds(Under1MB) == (Undefined, Num(1048576))
    ensures PresetBounds(From1MBTo10MB) == (Num(1048576), Num(10485760))
    ensures PresetBounds(Over10MB) == (Num(10485760), Undefined)
  {
  }

  // ----- active-filter badges -----

  /** JavaScript truthiness of a filter value. */
  predicate Truthy(v: ParamValue)
  {
    match v
    case Undefined => false
    case Null => false
    case Str(s) => s != ""
    case Num(n) => n != 0
  }

  /** Only name, type, minimum and maximum size have a badge; the dates have none. */
  predicate HasBadge(f: Field)
  {
    f != StartDate && f != EndDate
  }

  predicate BadgeShown(p: SearchParams, f: Field)
  {
    HasBadge(f) && Truthy(Get(p, f))
  }

  /** A shown badge always belongs to an active filter. */
  lemma BadgeImpliesActive(p: SearchParams, f: Field)
    ensures BadgeShown(p, f) ==> IsActive(Get(p, f))
  {
  }

  /** A size of 0 counts as active but gets no badge, and an active date never gets one. */
  lemma ActiveWithoutBadge(p: SearchParams)
    ensures p.minSizeBytes == Num(0) ==> IsActive(p.minSizeBytes) && !BadgeShown(p, MinSizeBytes)
    ensures IsActive(p.startDate) ==> !BadgeShown(p, StartDate)
  {
  }

  /**
   * The badge's X: "" for name and type, undefined for the sizes; either way the field
   * becomes undefined.
   */
  function BadgeClearValue(f: Field): ParamValue
  {
    if f == Filename || f == MimeType then Str("") else Undefined
  }

  function RemoveBadge(p: SearchParams, f: Field): (r: SearchParams)
  {
    With(p, f, NormalizeInput(BadgeClearValue(f)))
  }

  /** Removing a badge deactivates that field alone and lowers the count by one. */
  lemma RemoveBadgeSpec(p: SearchParams, f: Field)
    requires BadgeShown(p, f)
    ensures !IsActive(Get(RemoveBadge(p, f), f))
    ensures forall g :: g != f ==> Get(RemoveBadge(p, f), g) == Get(p, g)
    ensures ActiveCount(RemoveBadge(p, f)) == ActiveCount(p) - 1
  {
    ActiveCountAfterWith(p, f, Undefined);
  }

  // ----- the panel's state -----

  class FilterPanel {
    var filters: SearchParams

    constructor ()
      ensures filters == Initial
    {
      filters := Initial;
    }

    method HandleInputChange(field: Field, value: ParamValue)
      modifies this
      ensures filters == With(old(filters), field, NormalizeInput(value))
    {
      filters := With(filters, field, if value == Str("") then Undefined else value);
    }

    /** handleSearch submits the current record as it stands. */
    method HandleSearch() returns (submitted: SearchParams)
      ensures submitted == filters
    {
      submitted := filters;
    }

    /** clearFilters resets every field and submits the reset record. */
    method ClearFilters() returns (submitted: SearchParams)
      modifies this
      ensures filters == Initial && submitted == Initial
      ensures ActiveCount(submitted) == 0
    {
      filters := Initial;
      submitted := filters;
      InitialHasNoActiveFilter();
    }

    method ApplySizePreset(preset: SizePreset)
      modifies this
      ensures filters == ApplyPreset(old(filters), preset)
    {
      filters := filters.(minSizeBytes := PresetBounds(preset).0, maxSizeBytes := PresetBounds(preset).1);
    }

    /** The X on a shown badge. */
    method ClickBadgeX(field: Field)
      requires BadgeShown(filters, field)
      modifies this
      ensures filters == RemoveBadge(old(filters), field)
      ensures ActiveCount(filters) == ActiveCount(old(filters)) - 1
    {
      RemoveBadgeSpec(filters, field);
      HandleInputChange(field, BadgeClearValue(field));
    }
  }
}
