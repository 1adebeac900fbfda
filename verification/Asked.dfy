/** What a field of a definition is to be, in terms of what a caller asked for. */
module Asked {
  import opened Wrappers
  import opened Fields
  import opened RegistryState
  import opened Remote
  import opened Client
  import opened Keys

  /** The name, the datatype and, unless that is a string, the unit exactly as the caller wrote them. */
  predicate Verbatim(f: Field, name: string, unit: string, dtype: int) {
    f.name == name && f.dtype == dtype && f.unit == if 5 <= dtype <= 11 then None else Some(unit)
  }

  /** One field of the definition for every field of the caller's list, in order. */
  predicate ListsVerbatim(def: seq<Field>, fields: seq<ParsedField>) {
    && |def| == |fields|
    && forall i :: 0 <= i < |fields| ==> Verbatim(def[i], fields[i].name, fields[i].unit, fields[i].dtype)
  }

  /** The caller's variable, perhaps as an earlier caller wrote it: the case of its name and the white space
      around its name and its unit may differ. */
  ghost predicate Denotes(f: Field, name: string, unit: string, dtype: int) {
    && f.dtype == dtype && SameButCaseAndSpace(f.name, name)
    && if 5 <= dtype <= 11 then f.unit == None else f.unit.Some? && SameButSpace(f.unit.value, unit)
  }

  lemma RemoteFieldsAreVerbatim(fields: seq<ParsedField>)
    ensures ListsVerbatim(RemoteFields(fields), fields)
  {}

  lemma VerbatimIsUnique(def: seq<Field>, fields: seq<ParsedField>)
    requires ListsVerbatim(def, fields)
    ensures def == RemoteFields(fields)
  {}

  /** The field of a slot denotes every variable whose key the slot has. */
  lemma SlotDenotes(slot: VarSlot, name: string, unit: string, dtype: int)
    requires slot.Key() == KeyOf(name, unit, dtype)
    ensures Denotes(SlotField(slot), name, unit, dtype)
  {
    SameSlotExactly(slot.varName, slot.unit, slot.dtype, name, unit, dtype);
  }
}
