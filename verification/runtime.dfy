/**
 * The embedded Python interpreter as the error bridge sees it: one error
 * slot (PyErr_Fetch, PyErr_Clear, PyErr_Occurred), the reference counts of
 * the objects the bridge touches, and the few PyObject operations the bridge
 * calls (attribute lookup, call, conversion to a Ruby string, Py_XDECREF).
 * What an attribute lookup finds, what a call returns and what string an
 * object converts to are left uninterpreted: they are functions fixed when
 * the interpreter is created.
 */
module PyRuntime {
  import opened Util

  /** A PyObject pointer; `Null` is the C null pointer. */
  datatype Handle = Null | Ref(address: nat)

  /** The (type, value, traceback) triple of a raised exception. */
  datatype Triple = Triple(excType: Handle, value: Handle, traceback: Handle)

  /** What PyErr_Fetch hands out when no exception is pending. */
  const NO_ERROR := Triple(Null, Null, Null)

  /** The reference-count events of the interpreter, in the order they happen. */
  datatype Event =
    | Fetched(triple: Triple)                             // PyErr_Fetch: the slot's references pass to the caller
    | AttrLookup(owner: Handle, name: string, result: Handle) // getAttr: a new reference to the attribute
    | Called(callee: Handle, result: Handle)              // callObject: a new reference to the result
    | Rubified(obj: Handle)                               // rubify: the object is read, counts unchanged
    | Released(obj: Handle)                               // xDecref on a non-null handle
    | ErrorCleared(dropped: Option<Triple>)               // PyErr_Clear: drops what the slot still held

  /** The number of references the triple holds on `h`: one per non-null entry equal to `h`. */
  function References(tr: Triple, h: Handle): nat {
    (if h != Null && tr.excType == h then 1 else 0)
    + (if h != Null && tr.value == h then 1 else 0)
    + (if h != Null && tr.traceback == h then 1 else 0)
  }

  /** The number of references the error slot holds on `h`. */
  function SlotReferences(slot: Option<Triple>, h: Handle): nat {
    match slot
    case None => 0
    case Some(tr) => References(tr, h)
  }

  /** The reference count of `h`; a handle absent from the map has count zero. */
  function CountIn(counts: map<Handle, int>, h: Handle): int {
    if h in counts then counts[h] else 0
  }

  /**
   * A well-formed interpreter state: a pending exception always has a type
   * (PyErr_Occurred is the type pointer), and every reference the slot holds
   * is counted.
   */
  ghost predicate Consistent(slot: Option<Triple>, counts: map<Handle, int>) {
    (slot.Some? ==> slot.value.excType != Null)
    && forall h :: CountIn(counts, h) >= SlotReferences(slot, h)
  }

  /** How an event changes the reference count of `h`. */
  function Delta(e: Event, h: Handle): int {
    match e
    case Fetched(_) => 0
    case AttrLookup(_, _, r) => if h == r then 1 else 0
    case Called(_, r) => if h == r then 1 else 0
    case Rubified(_) => 0
    case Released(x) => if h == x then -1 else 0
    case ErrorCleared(slot) => -(SlotReferences(slot, h) as int)
  }

  /** The non-null entries of a triple. */
  function Handles(tr: Triple): set<Handle> {
    {tr.excType, tr.value, tr.traceback} - {Null}
  }

  /** The reference counts after an event. */
  function Apply(counts: map<Handle, int>, e: Event): map<Handle, int> {
    match e
    case AttrLookup(_, _, r) => counts[r := CountIn(counts, r) + 1]
    case Called(_, r) => counts[r := CountIn(counts, r) + 1]
    case Released(x) => counts[x := CountIn(counts, x) - 1]
    case ErrorCleared(Some(tr)) =>
      map h | h in counts.Keys + Handles(tr) :: CountIn(counts, h) - References(tr, h)
    case _ => counts
  }

  /** Apply changes each count by the event's Delta. */
  lemma CountApply(counts: map<Handle, int>, e: Event, h: Handle)
    ensures CountIn(Apply(counts, e), h) == CountIn(counts, h) + Delta(e, h)
  {
  }

  /** The reference counts after xDecref: a null handle changes nothing. */
  function ReleaseIn(counts: map<Handle, int>, x: Handle): map<Handle, int> {
    if x != Null then Apply(counts, Released(x)) else counts
  }

  /** One xDecref: the count of a non-null handle drops by one, nothing else changes. */
  lemma ReleaseStep(counts: map<Handle, int>, x: Handle, h: Handle)
    ensures CountIn(ReleaseIn(counts, x), h) == CountIn(counts, h) - (if x != Null && h == x then 1 else 0)
  {
  }

  /** The net change to the reference count of `h` over a sequence of events. */
  function Net(events: seq<Event>, h: Handle): int {
    if events == [] then 0 else Delta(events[0], h) + Net(events[1..], h)
  }

  /** How many times `h` is released by xDecref in a sequence of events. */
  function ReleaseCount(events: seq<Event>, h: Handle): nat {
    if events == [] then 0
    else (if events[0] == Released(h) then 1 else 0) + ReleaseCount(events[1..], h)
  }

  /** The events of one xDecref: none for a null handle. */
  function ReleaseTrace(h: Handle): seq<Event> {
    if h == Null then [] else [Released(h)]
  }

  lemma NetSingle(e: Event, h: Handle)
    ensures Net([e], h) == Delta(e, h)
    ensures ReleaseCount([e], h) == if e == Released(h) then 1 else 0
  {
    assert [e][1..] == [];
  }

  /** The events of one xDecref release `x` once when it is not null, and change only its count. */
  lemma ReleaseTraceCounts(x: Handle, h: Handle)
    ensures ReleaseCount(ReleaseTrace(x), h) == if x != Null && h == x then 1 else 0
    ensures Net(ReleaseTrace(x), h) == if x != Null && h == x then -1 else 0
  {
    if x != Null {
      NetSingle(Released(x), h);
    }
  }

  lemma {:induction false} NetAppend(a: seq<Event>, b: seq<Event>, h: Handle)
    ensures Net(a + b, h) == Net(a, h) + Net(b, h)
  {
    if a == [] {
      assert a + b == b;
    } else {
      assert (a + b)[1..] == a[1..] + b;
      NetAppend(a[1..], b, h);
    }
  }

  lemma {:induction false} ReleaseCountAppend(a: seq<Event>, b: seq<Event>, h: Handle)
    ensures ReleaseCount(a + b, h) == ReleaseCount(a, h) + ReleaseCount(b, h)
  {
    if a == [] {
      assert a + b == b;
    } else {
      assert (a + b)[1..] == a[1..] + b;
      ReleaseCountAppend(a[1..], b, h);
    }
  }

  /**
   * The interpreter: its error slot, the reference counts, and a ghost log of
   * every reference-count event. `attribute`, `invoke` and `text` say what
   * getAttr finds, what a call with no arguments returns and what Ruby string
   * an object converts to.
   */
  class Interpreter {
    var pending: Option<Triple>
    var refcount: map<Handle, int>
    ghost var log: seq<Event>
    const attribute: (Handle, string) -> Handle
    const invoke: Handle -> Handle
    const text: Handle -> string

    ghost predicate Valid()
      reads this
    {
      Consistent(pending, refcount)
    }

    constructor (attribute: (Handle, string) -> Handle, invoke: Handle -> Handle,
                 text: Handle -> string, pending: Option<Triple>, refcount: map<Handle, int>)
      requires Consistent(pending, refcount)
      ensures Valid() && log == []
      ensures this.pending == pending && this.refcount == refcount
      ensures this.attribute == attribute && this.invoke == invoke && this.text == text
    {
      this.attribute, this.invoke, this.text := attribute, invoke, text;
      this.pending, this.refcount := pending, refcount;
      log := [];
    }

    /** PyErr_Occurred is the type of the pending exception; an error occurred when it is not null. */
    method ErrorOccurred() returns (occurred: bool)
      requires Valid()
      ensures occurred <==> pending.Some?
    {
      var occurredType := if pending.Some? then pending.value.excType else Null;
      occurred := occurredType != Null;
    }

    /**
     * PyErr_Fetch: hands the pending triple to the caller in the order
     * (type, value, traceback), together with the references the slot held,
     * and empties the slot. With nothing pending it hands out three nulls.
     */
    method Fetch() returns (tr: Triple)
      requires Valid()
      modifies this
      ensures Valid() && pending == None
      ensures tr == if old(pending).Some? then old(pending).value else NO_ERROR
      ensures refcount == old(refcount)
      ensures forall h :: CountIn(refcount, h) >= References(tr, h)
      ensures log == old(log) + [Fetched(tr)]
    {
      tr := if pending.Some? then pending.value else NO_ERROR;
      assert forall h :: SlotReferences(pending, h) == References(tr, h);
      pending := None;
      log := log + [Fetched(tr)];
    }

    /**
     * PyErr_Clear: empties the slot and drops the references it still held.
     * On an empty slot it changes nothing, so clearing twice is clearing once.
     */
    method Clear()
      requires Valid()
      modifies this
      ensures Valid() && pending == None
      ensures refcount == Apply(old(refcount), ErrorCleared(old(pending)))
      ensures old(pending) == None ==> refcount == old(refcount)
      ensures log == old(log) + [ErrorCleared(old(pending))]
    {
      log := log + [ErrorCleared(pending)];
      if pending.Some? {
        var tr := pending.value;
        refcount := map h | h in refcount.Keys + Handles(tr) :: CountIn(refcount, h) - References(tr, h);
      }
      pending := None;
    }

    /** getAttr: looks an attribute up on a live object and returns a new reference to it. */
    method GetAttr(obj: Handle, name: string) returns (r: Handle)
      requires Valid()
      requires obj != Null && CountIn(refcount, obj) > 0
      requires attribute(obj, name) != Null
      modifies this
      ensures Valid() && pending == old(pending)
      ensures r == attribute(obj, name)
      ensures refcount == Apply(old(refcount), AttrLookup(obj, name, r))
      ensures log == old(log) + [AttrLookup(obj, name, r)]
    {
      r := attribute(obj, name);
      refcount := refcount[r := CountIn(refcount, r) + 1];
      log := log + [AttrLookup(obj, name, r)];
    }

    /** callObject with an empty argument tuple: calls a live object and returns a new reference to the result. */
    method CallObject(callee: Handle) returns (r: Handle)
      requires Valid()
      requires callee != Null && CountIn(refcount, callee) > 0
      requires invoke(callee) != Null
      modifies this
      ensures Valid() && pending == old(pending)
      ensures r == invoke(callee)
      ensures refcount == Apply(old(refcount), Called(callee, r))
      ensures log == old(log) + [Called(callee, r)]
    {
      r := invoke(callee);
      refcount := refcount[r := CountIn(refcount, r) + 1];
      log := log + [Called(callee, r)];
    }

    /** rubify: converts a live Python string to a Ruby string; no count changes. */
    method Rubify(obj: Handle) returns (s: string)
      requires Valid()
      requires obj != Null && CountIn(refcount, obj) > 0
      modifies this`log
      ensures Valid() && pending == old(pending)
      ensures s == text(obj)
      ensures log == old(log) + [Rubified(obj)]
    {
      s := text(obj);
      log := log + [Rubified(obj)];
    }

    /**
     * xDecref: a no-op on a null handle; otherwise gives up one reference.
     * The count must exceed the references the error slot still holds; which
     * holder a reference belongs to is not tracked.
     */
    method XDecref(obj: Handle)
      requires Valid()
      requires obj != Null ==> CountIn(refcount, obj) > SlotReferences(pending, obj)
      modifies this
      ensures Valid() && pending == old(pending)
      ensures refcount == ReleaseIn(old(refcount), obj)
      ensures log == old(log) + ReleaseTrace(obj)
    {
      if obj != Null {
        refcount := refcount[obj := CountIn(refcount, obj) - 1];
        log := log + [Released(obj)];
      }
    }
  }
}
