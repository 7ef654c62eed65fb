/**
 * The medication picker of the diagnosis form: searching the drug directory,
 * and the prescription list it edits (add a found drug, remove an entry,
 * change one field of an entry).
 */
module DrugSearch {
  import opened Wrappers

  /** A directory entry; every field may be missing. */
  datatype Drug = Drug(productNdc: Option<string>, genericName: Option<string>, brandName: Option<string>)

  /** A prescription entry. Only `name` is always present. */
  datatype SelectedDrug = SelectedDrug(
    name: string,
    dosage: Option<string>,
    frequency: Option<string>,
    duration: Option<string>,
    notes: Option<string>,
    ndc: Option<string>)

  /** `keyof SelectedDrug` */
  datatype DrugField = Name | Dosage | Frequency | Duration | Notes | Ndc

  // ---------------------------------------------------------------------------
  // Adding a drug
  // ---------------------------------------------------------------------------

  /** `s || next` over an optional string: a missing or empty string falls through. */
  predicate Present(s: Option<string>) {
    s.Some? && s.value != ""
  }

  /** `drug.brand_name || drug.generic_name || 'Unknown Drug'` */
  function DrugName(drug: Drug): (name: string)
    ensures Present(drug.brandName) ==> name == drug.brandName.value
    ensures !Present(drug.brandName) && Present(drug.genericName) ==> name == drug.genericName.value
    ensures !Present(drug.brandName) && !Present(drug.genericName) ==> name == "Unknown Drug"
    ensures name != ""
  {
    if Present(drug.brandName) then drug.brandName.value
    else if Present(drug.genericName) then drug.genericName.value
    else "Unknown Drug"
  }

  /** The entry a selected drug becomes: named, blank instructions, its product code. */
  function NewEntry(drug: Drug): (e: SelectedDrug)
    ensures e.name == DrugName(drug) && e.ndc == drug.productNdc
    ensures e.dosage == Some("") && e.frequency == Some("") && e.duration == Some("") && e.notes == Some("")
  {
    SelectedDrug(DrugName(drug), Some(""), Some(""), Some(""), Some(""), drug.productNdc)
  }

  /** `[...selectedDrugs, newDrug]`: one entry more, at the end, and the others untouched. */
  function WithDrugAdded(drugs: seq<SelectedDrug>, drug: Drug): (r: seq<SelectedDrug>)
    ensures |r| == |drugs| + 1
    ensures r[..|drugs|] == drugs
    ensures r[|drugs|] == NewEntry(drug)
  {
    drugs + [NewEntry(drug)]
  }

  // ---------------------------------------------------------------------------
  // Removing an entry
  // ---------------------------------------------------------------------------

  /** `drugs.filter((_, i) => i !== index)`, walking the list with the index counted down. */
  function RemoveAt<T>(drugs: seq<T>, index: int): (r: seq<T>)
    // an index in range removes exactly that entry and keeps the others in order
    ensures 0 <= index < |drugs| ==> r == drugs[..index] + drugs[index + 1..]
    // any other index removes nothing
    ensures !(0 <= index < |drugs|) ==> r == drugs
    decreases |drugs|
  {
    if drugs == [] then []
    else (if index == 0 then [] else [drugs[0]]) + RemoveAt(drugs[1..], index - 1)
  }

  /** Removing shortens the list by one exactly when the index is in range. */
  lemma RemoveAtLength<T>(drugs: seq<T>, index: int)
    ensures |RemoveAt(drugs, index)| == if 0 <= index < |drugs| then |drugs| - 1 else |drugs|
  {
  }

  // ---------------------------------------------------------------------------
  // Updating an entry
  // ---------------------------------------------------------------------------

  /** The value of one field; `name` is always present. */
  function FieldOf(d: SelectedDrug, f: DrugField): Option<string> {
    match f
    case Name => Some(d.name)
    case Dosage => d.dosage
    case Frequency => d.frequency
    case Duration => d.duration
    case Notes => d.notes
    case Ndc => d.ndc
  }

  /** `{ ...drug, [field]: value }`: the named field takes the value and every other field is kept. */
  function SetField(d: SelectedDrug, f: DrugField, value: string): (r: SelectedDrug)
    ensures FieldOf(r, f) == Some(value)
    ensures forall g :: g != f ==> FieldOf(r, g) == FieldOf(d, g)
  {
    match f
    case Name => d.(name := value)
    case Dosage => d.(dosage := Some(value))
    case Frequency => d.(frequency := Some(value))
    case Duration => d.(duration := Some(value))
    case Notes => d.(notes := Some(value))
    case Ndc => d.(ndc := Some(value))
  }

  /** `drugs.map((drug, i) => i === index ? { ...drug, [field]: value } : drug)` */
  function UpdateAt(drugs: seq<SelectedDrug>, index: int, f: DrugField, value: string): (r: seq<SelectedDrug>)
    ensures |r| == |drugs|
    // every other entry is identical
    ensures forall i :: 0 <= i < |drugs| && i != index ==> r[i] == drugs[i]
    // entry `index` changes in the named field only
    ensures 0 <= index < |drugs| ==> FieldOf(r[index], f) == Some(value)
    ensures 0 <= index < |drugs| ==> forall g :: g != f ==> FieldOf(r[index], g) == FieldOf(drugs[index], g)
  {
    seq(|drugs|, i requires 0 <= i < |drugs| => if i == index then SetField(drugs[i], f, value) else drugs[i])
  }

  // ---------------------------------------------------------------------------
  // The component
  // ---------------------------------------------------------------------------

  /** The outcome of the directory lookup: it failed, or it answered with `results` (possibly absent). */
  datatype Lookup = LookupFailed | Answered(results: Option<seq<Drug>>)

  /** `data.results || []` */
  function ResultsOf(answer: Option<seq<Drug>>): seq<Drug> {
    if answer.Some? then answer.value else []
  }

  class DrugPicker {
    /** The parent's prescription list, replaced through `onDrugsChange`. */
    var drugs: seq<SelectedDrug>
    var query: string
    var results: seq<Drug>
    var isSearching: bool
    var showResults: bool
    var noResultsFound: bool
    /** Every query sent to the directory, in order. */
    var lookups: seq<string>

    constructor(drugs: seq<SelectedDrug>)
      ensures this.drugs == drugs && query == "" && results == [] && lookups == []
      ensures !isSearching && !showResults && !noResultsFound
    {
      this.drugs := drugs;
      query := "";
      results := [];
      isSearching := false;
      showResults := false;
      noResultsFound := false;
      lookups := [];
    }

    /** `searchDrugs(q)`, given how the lookup it would send turns out. */
    method SearchDrugs(q: string, lookup: Lookup)
      modifies this
      // a query of fewer than two characters sends nothing and hides the list
      ensures |q| < 2 ==>
                && lookups == old(lookups) && results == [] && !showResults && !noResultsFound
                && isSearching == old(isSearching)
      // otherwise it sends the query and shows the list, with "no results" exactly when it is empty
      ensures |q| >= 2 ==> lookups == old(lookups) + [q] && showResults && !isSearching
      ensures |q| >= 2 && lookup.LookupFailed? ==> results == [] && noResultsFound
      ensures |q| >= 2 && lookup.Answered? ==>
                results == ResultsOf(lookup.results) && (noResultsFound <==> results == [])
      ensures drugs == old(drugs) && query == old(query)
    {
      if |q| < 2 {
        results := [];
        showResults := false;
        noResultsFound := false;
        return;
      }
      isSearching := true;
      noResultsFound := false;
      lookups := lookups + [q];
      match lookup {
        case LookupFailed =>
          results := [];
          noResultsFound := true;
          showResults := true;
        case Answered(answer) =>
          var found := ResultsOf(answer);
          if |found| == 0 {
            results := [];
            noResultsFound := true;
          } else {
            results := found;
            noResultsFound := false;
          }
          showResults := true;
      }
      isSearching := false;
    }

    /** `handleSelectDrug` */
    method SelectDrug(drug: Drug)
      modifies this
      ensures drugs == WithDrugAdded(old(drugs), drug)
      ensures query == "" && !showResults
      ensures results == old(results) && isSearching == old(isSearching)
      ensures noResultsFound == old(noResultsFound) && lookups == old(lookups)
    {
      drugs := WithDrugAdded(drugs, drug);
      query := "";
      showResults := false;
    }

    /** `handleRemoveDrug` */
    method RemoveDrug(index: int)
      modifies this
      ensures drugs == RemoveAt(old(drugs), index)
      ensures query == old(query) && results == old(results) && isSearching == old(isSearching)
      ensures showResults == old(showResults) && noResultsFound == old(noResultsFound) && lookups == old(lookups)
    {
      drugs := RemoveAt(drugs, index);
    }

    /** `handleUpdateDrug` */
    method UpdateDrug(index: int, f: DrugField, value: string)
      modifies this
      ensures drugs == UpdateAt(old(drugs), index, f, value)
      ensures query == old(query) && results == old(results) && isSearching == old(isSearching)
      ensures showResults == old(showResults) && noResultsFound == old(noResultsFound) && lookups == old(lookups)
    {
      drugs := UpdateAt(drugs, index, f, value);
    }
  }
}
