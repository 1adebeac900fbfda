/** The DLL's side of a session: its data definitions and open requests, and the HRESULTs it will return. */
module Remote {
  import opened Wrappers
  import opened Parsing

  /** What AddToDataDefinition is told about one field; a string field has no unit. */
  datatype Field = Field(name: string, unit: Option<string>, dtype: int)

  function UnitForDefinition(unit: string, dtype: int): Option<string> {
    if IsStringDatatype(dtype) then None else Some(unit)
  }

  /** `requests` maps a request id to the definition it packs. `script` lists the HRESULTs of the coming
      calls; past its end every call succeeds. Without a session every call fails. */
  datatype Remote = Remote(
    open: bool,
    defs: map<int, seq<Field>>,
    requests: map<int, int>,
    script: seq<int>
  )

  function NewSession(r: Remote): Remote { Remote(true, map[], map[], r.script) }

  function NoSession(r: Remote): Remote { Remote(false, map[], map[], r.script) }

  function Def(r: Remote, id: int): seq<Field> { if id in r.defs then r.defs[id] else [] }

  /** Whether the next call returns HRESULT 0. */
  predicate Accepts(r: Remote) { r.open && (r.script == [] || r.script[0] == 0) }

  function Called(r: Remote): Remote {
    if r.open && r.script != [] then r.(script := r.script[1..]) else r
  }

  /** So many calls of which only the HRESULTs matter. */
  function Spent(r: Remote, calls: nat): Remote {
    if r.open then r.(script := if calls < |r.script| then r.script[calls..] else []) else r
  }

  function AddToDefinition(r: Remote, id: int, f: Field): Remote {
    if Accepts(r) then Called(r).(defs := r.defs[id := Def(r, id) + [f]]) else Called(r)
  }

  function ClearDefinition(r: Remote, id: int): Remote {
    if Accepts(r) then Called(r).(defs := r.defs - {id}) else Called(r)
  }

  /** Period NEVER ends a request. */
  function RequestData(r: Remote, request: int, id: int, period: int): Remote {
    if !Accepts(r) then Called(r)
    else if period == PERIOD_NEVER then Called(r).(requests := r.requests - {request})
    else Called(r).(requests := r.requests[request := id])
  }

  function RequestDataOnType(r: Remote, request: int, id: int): Remote {
    if Accepts(r) then Called(r).(requests := r.requests[request := id]) else Called(r)
  }

  const PERIOD_NEVER := 0

  /** Adds the fields in order until a call fails; the flag tells whether all were added. */
  function AddAll(r: Remote, id: int, fields: seq<Field>): (Remote, bool)
    decreases |fields|
  {
    if fields == [] then (r, true)
    else if !Accepts(r) then (Called(r), false)
    else AddAll(AddToDefinition(r, id, fields[0]), id, fields[1..])
  }

  /** Every call on an open session returns HRESULT 0. */
  predicate Clean(r: Remote) { forall i :: 0 <= i < |r.script| ==> r.script[i] == 0 }

  lemma {:induction false} AddAllAppends(r: Remote, id: int, fields: seq<Field>)
    requires Clean(r) && r.open
    ensures AddAll(r, id, fields).1
    ensures Def(AddAll(r, id, fields).0, id) == Def(r, id) + fields
    ensures Clean(AddAll(r, id, fields).0)
    decreases |fields|
  {
    if fields == [] {
      assert Def(r, id) + fields == Def(r, id);
    } else {
      AddAllAppends(AddToDefinition(r, id, fields[0]), id, fields[1..]);
      assert Def(r, id) + [fields[0]] + fields[1..] == Def(r, id) + fields;
    }
  }

  /** A call for one definition leaves the session, the other definitions and the requests alone. */
  ghost predicate OnlyDefinition(r: Remote, q: Remote, id: int) {
    && q.open == r.open && q.requests == r.requests
    && (forall i :: i != id ==> Def(q, i) == Def(r, i))
    && (Clean(r) ==> Clean(q))
  }

  lemma {:induction false} AddAllFrame(r: Remote, id: int, fields: seq<Field>)
    ensures OnlyDefinition(r, AddAll(r, id, fields).0, id)
    decreases |fields|
  {
    if fields != [] && Accepts(r) {
      AddAllFrame(AddToDefinition(r, id, fields[0]), id, fields[1..]);
    }
  }
}
