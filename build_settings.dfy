/** YooAssetBuildSettings: the editor's persisted build choices. Two lists of
    (name, flag) entries record which packages are selected for a build and
    which build steps are enabled; a name without an entry counts as selected
    (or enabled). */
module BuildSettings {
  import opened Common

  /** A `PackageSelectionEntry` (name, `selected`) or a `StepEnabledEntry`
      (name, `enabled`). */
  datatype Entry = Entry(name: string, flag: bool)

  /** `List.Find(e => e.name == name)`: the position of the first entry with
      that name, if any. */
  function FindFirst(entries: seq<Entry>, name: string): (r: Option<nat>)
    ensures r.Some? ==> r.value < |entries| && entries[r.value].name == name
                        && forall j :: 0 <= j < r.value ==> entries[j].name != name
    ensures r.None? ==> forall j :: 0 <= j < |entries| ==> entries[j].name != name
    decreases |entries|
  {
    if entries == [] then None
    else if entries[0].name == name then Some(0)
    else match FindFirst(entries[1..], name)
      case None => None
      case Some(i) => Some(i + 1)
  }

  /** Some entry carries the name. */
  predicate Listed(entries: seq<Entry>, name: string) {
    exists i :: 0 <= i < |entries| && entries[i].name == name
  }

  /** `entry?.selected ?? true`: the flag of the first entry with that name,
      or true when there is none. */
  function Lookup(entries: seq<Entry>, name: string): (r: bool)
    ensures !Listed(entries, name) ==> r
    ensures forall i :: (0 <= i < |entries| && entries[i].name == name
                         && forall j :: 0 <= j < i ==> entries[j].name != name) ==> r == entries[i].flag
  {
    match FindFirst(entries, name)
    case None => true
    case Some(i) => entries[i].flag
  }

  /** The `Set*` update: the first entry with that name gets the flag, in
      place; without one, a new entry is appended. */
  function Upsert(entries: seq<Entry>, name: string, flag: bool): (r: seq<Entry>)
    ensures Lookup(r, name) == flag
    ensures |r| == |entries| + (if Listed(entries, name) then 0 else 1)
    ensures forall i :: 0 <= i < |entries| && entries[i].name != name ==> r[i] == entries[i]
    ensures !Listed(entries, name) ==> r == entries + [Entry(name, flag)]
  {
    match FindFirst(entries, name)
    case Some(i) =>
      var r := entries[i := Entry(name, flag)];
      assert forall j :: 0 <= j < i ==> r[j] == entries[j];
      assert r[i] == Entry(name, flag);
      r
    case None =>
      var r := entries + [Entry(name, flag)];
      assert forall j :: 0 <= j < |entries| ==> r[j] == entries[j];
      assert r[|entries|] == Entry(name, flag);
      r
  }

  /** Lookup peels off one entry. */
  lemma LookupCons(entries: seq<Entry>, name: string)
    requires entries != []
    ensures Lookup(entries, name) == if entries[0].name == name then entries[0].flag else Lookup(entries[1..], name)
  {
    if entries[0].name != name {
      var rest := FindFirst(entries[1..], name);
      if rest.Some? {
        assert FindFirst(entries, name) == Some(rest.value + 1);
      }
    }
  }

  /** Lemma: setting one name's flag leaves the flag of every other name as it was. */
  lemma UpsertKeepsOthers(entries: seq<Entry>, name: string, flag: bool, other: string)
    requires other != name
    ensures Lookup(Upsert(entries, name, flag), other) == Lookup(entries, other)
  {
    var r := Upsert(entries, name, flag);
    assert forall i :: 0 <= i < |entries| ==> (r[i].name == other <==> entries[i].name == other);
    match FindFirst(entries, other)
    case None =>
      assert forall i :: 0 <= i < |r| ==> r[i].name != other;
    case Some(k) =>
      assert r[k] == entries[k];
  }

  /** The predicate `CleanupSelections` keeps entries by. */
  function Retained(valid: set<string>): Entry -> bool {
    (e: Entry) => e.name in valid
  }

  /** Lemma: after keeping only the entries of valid names, a valid name reads
      as before and any other name reads as the default. */
  lemma {:induction false} CleanupLookup(entries: seq<Entry>, valid: set<string>, name: string)
    ensures name in valid ==> Lookup(Filter(entries, Retained(valid)), name) == Lookup(entries, name)
    ensures name !in valid ==> Lookup(Filter(entries, Retained(valid)), name)
    decreases |entries|
  {
    var kept := Filter(entries, Retained(valid));
    if entries == [] {
    } else {
      CleanupLookup(entries[1..], valid, name);
      LookupCons(entries, name);
      if Retained(valid)(entries[0]) {
        assert kept == [entries[0]] + Filter(entries[1..], Retained(valid));
        LookupCons(kept, name);
        assert kept[1..] == Filter(entries[1..], Retained(valid));
      } else {
        assert kept == Filter(entries[1..], Retained(valid));
      }
    }
  }

  /** The build settings singleton: the two entry lists and the scalar
      choices other editor code reads. */
  class YooAssetBuildSettings {
    /** `_packageSelections`. */
    var packageSelections: seq<Entry>
    /** `_stepEnabledStates`. */
    var stepEnabledStates: seq<Entry>
    /** `pipelineEnabled`. */
    var pipelineEnabled: bool
    /** `UploadConfigIndex`. */
    var uploadConfigIndex: int
    /** How many times the settings have been written to their asset file. */
    var saves: nat

    constructor ()
      ensures packageSelections == [] && stepEnabledStates == [] && pipelineEnabled && uploadConfigIndex == 0
      ensures saves == 0
    {
      packageSelections := [];
      stepEnabledStates := [];
      pipelineEnabled := true;
      uploadConfigIndex := 0;
      saves := 0;
    }

    /** `GetPackageSelected(name)`. */
    function GetPackageSelected(name: string): bool
      reads this
    {
      Lookup(packageSelections, name)
    }

    /** `SetPackageSelected(name, selected)`. */
    method SetPackageSelected(name: string, selected: bool)
      modifies this
      ensures packageSelections == Upsert(old(packageSelections), name, selected)
      ensures GetPackageSelected(name) == selected
      ensures stepEnabledStates == old(stepEnabledStates) && pipelineEnabled == old(pipelineEnabled)
      ensures uploadConfigIndex == old(uploadConfigIndex) && saves == old(saves)
    {
      var entry := FindFirst(packageSelections, name);
      if entry.Some? {
        packageSelections := packageSelections[entry.value := Entry(name, selected)];
      } else {
        packageSelections := packageSelections + [Entry(name, selected)];
      }
    }

    /** `CleanupSelections(validPackageNames)`: `RemoveAll` of the entries whose
        name is not valid. */
    method CleanupSelections(valid: set<string>)
      modifies this
      ensures packageSelections == Filter(old(packageSelections), Retained(valid))
      ensures stepEnabledStates == old(stepEnabledStates) && pipelineEnabled == old(pipelineEnabled)
      ensures uploadConfigIndex == old(uploadConfigIndex) && saves == old(saves)
    {
      packageSelections := Filter(packageSelections, Retained(valid));
    }

    /** `GetStepEnabled(name)`. */
    function GetStepEnabled(name: string): bool
      reads this
    {
      Lookup(stepEnabledStates, name)
    }

    /** `SetStepEnabled(name, enabled)`. */
    method SetStepEnabled(name: string, enabled: bool)
      modifies this
      ensures stepEnabledStates == Upsert(old(stepEnabledStates), name, enabled)
      ensures GetStepEnabled(name) == enabled
      ensures packageSelections == old(packageSelections) && pipelineEnabled == old(pipelineEnabled)
      ensures uploadConfigIndex == old(uploadConfigIndex) && saves == old(saves)
    {
      var entry := FindFirst(stepEnabledStates, name);
      if entry.Some? {
        stepEnabledStates := stepEnabledStates[entry.value := Entry(name, enabled)];
      } else {
        stepEnabledStates := stepEnabledStates + [Entry(name, enabled)];
      }
    }

    /** `Save()`: the settings are written to their asset file. */
    method Save()
      modifies this
      ensures saves == old(saves) + 1
      ensures packageSelections == old(packageSelections) && stepEnabledStates == old(stepEnabledStates)
      ensures pipelineEnabled == old(pipelineEnabled) && uploadConfigIndex == old(uploadConfigIndex)
    {
      saves := saves + 1;
    }
  }
}
