/**
 * RubyPython::PythonError: the Ruby exception that stands for a Python
 * exception, and handle_error, the factory that turns the interpreter's
 * pending exception into one while giving back every reference it takes.
 */
module PythonErrors {
  import opened Util
  import opened PyRuntime

  /** A PythonError: the Python type name (its @type) and its RuntimeError message. */
  datatype PythonError = PythonError(typeName: string, message: string)

  /** Ruby's to_s as Array#join applies it: a String is itself, nil is "". */
  function ToS(s: Option<string>): string {
    match s
    case None => ""
    case Some(v) => v
  }

  /** Ruby's Array#join over strings. */
  function Join(parts: seq<string>, sep: string): string {
    if |parts| == 0 then ""
    else if |parts| == 1 then parts[0]
    else parts[0] + sep + Join(parts[1..], sep)
  }

  /** The separator PythonError#initialize joins the type name and the message with. */
  const SEPARATOR := ": "

  /**
   * The message PythonError#initialize builds, `[typeName, msg].join(': ')`:
   * the type name, ": ", and the message. A nil message renders as "", so the
   * separator stays: the text is `typeName + ": "`, not the type name alone.
   */
  function DisplayMessage(typeName: string, msg: Option<string>): (r: string)
    ensures r == typeName + SEPARATOR + ToS(msg)
    ensures msg == None ==> r == typeName + SEPARATOR
  {
    assert [typeName, ToS(msg)][1..] == [ToS(msg)];
    assert Join([ToS(msg)], SEPARATOR) == ToS(msg);
    Join([typeName, ToS(msg)], SEPARATOR)
  }

  /** Reads a message back: the part before its first SEPARATOR and the part after it. */
  function SplitMessage(message: string): Option<(string, string)> {
    var i := FirstIndex(message, SEPARATOR[0]);
    if i + 1 < |message| && message[i + 1] == SEPARATOR[1] then Some((message[..i], message[i + 2..]))
    else None
  }

  /** The message keeps both of its parts: a type name without ':' and the rendered value can be read back. */
  lemma SplitDisplayMessage(typeName: string, msg: Option<string>)
    requires SEPARATOR[0] !in typeName
    ensures SplitMessage(DisplayMessage(typeName, msg)) == Some((typeName, ToS(msg)))
  {
    var m := DisplayMessage(typeName, msg);
    FirstIndexAt(m, SEPARATOR[0], |typeName|);
    assert m[..|typeName|] == typeName;
    assert m[|typeName| + 2..] == ToS(msg);
  }

  /** What handle_error renders for the value: nil for a null value, otherwise `value.__str__()` as a Ruby string. */
  function RenderedMessage(attribute: (Handle, string) -> Handle, invoke: Handle -> Handle,
                           text: Handle -> string, value: Handle): Option<string>
  {
    if value == Null then None else Some(text(invoke(attribute(value, "__str__"))))
  }

  /** The Ruby string of the exception type's `__name__`. */
  function TypeName(attribute: (Handle, string) -> Handle, text: Handle -> string, excType: Handle): string {
    text(attribute(excType, "__name__"))
  }

  /**
   * The references handle_error takes and does not give back: the bound
   * `__str__` method and the string it returns, left to the wrappers' finalisers.
   */
  function StrTemporaries(attribute: (Handle, string) -> Handle, invoke: Handle -> Handle,
                          value: Handle, h: Handle): nat
  {
    if value == Null then 0
    else
      var strMethod := attribute(value, "__str__");
      (if h == strMethod then 1 else 0) + (if h == invoke(strMethod) then 1 else 0)
  }

  /** The lookups handle_error makes succeed: the type's `__name__`, and for a value its `__str__` and the call. */
  predicate LookupsSucceed(attribute: (Handle, string) -> Handle, invoke: Handle -> Handle, tr: Triple) {
    tr.excType != Null
    && attribute(tr.excType, "__name__") != Null
    && (tr.value != Null ==>
          attribute(tr.value, "__str__") != Null && invoke(attribute(tr.value, "__str__")) != Null)
  }

  /** The events of rendering the value: look up `__str__`, call it, convert the result. */
  function RenderTrace(attribute: (Handle, string) -> Handle, invoke: Handle -> Handle, value: Handle): seq<Event> {
    if value == Null then []
    else
      var strMethod := attribute(value, "__str__");
      [AttrLookup(value, "__str__", strMethod), Called(strMethod, invoke(strMethod)), Rubified(invoke(strMethod))]
  }

  /** Fetching and rendering neither release anything nor look `__name__` up. */
  lemma FetchRenderExcludes(attribute: (Handle, string) -> Handle, invoke: Handle -> Handle, tr: Triple,
                            x: Handle, owner: Handle, r: Handle)
    ensures var front := [Fetched(tr)] + RenderTrace(attribute, invoke, tr.value);
            Released(x) !in front && AttrLookup(owner, "__name__", r) !in front
  {
    assert |"__name__"| != |"__str__"|;
    if tr.value == Null {
      assert [Fetched(tr)] + RenderTrace(attribute, invoke, tr.value) == [Fetched(tr)];
    }
  }

  /** Rendering releases nothing and leaves the `__str__` method and its result counted. */
  lemma RenderTraceCounts(attribute: (Handle, string) -> Handle, invoke: Handle -> Handle, value: Handle, h: Handle)
    ensures ReleaseCount(RenderTrace(attribute, invoke, value), h) == 0
    ensures Net(RenderTrace(attribute, invoke, value), h) == StrTemporaries(attribute, invoke, value, h)
  {
    if value != Null {
      var strMethod := attribute(value, "__str__");
      var a, b, c := AttrLookup(value, "__str__", strMethod), Called(strMethod, invoke(strMethod)), Rubified(invoke(strMethod));
      assert RenderTrace(attribute, invoke, value) == [a] + [b] + [c];
      NetSingle(a, h);
      NetSingle(b, h);
      NetSingle(c, h);
      NetAppend([a], [b], h);
      NetAppend([a] + [b], [c], h);
      ReleaseCountAppend([a], [b], h);
      ReleaseCountAppend([a] + [b], [c], h);
    }
  }

  /**
   * The events of handle_error after rendering: xDecref of value and
   * traceback, the `__name__` lookup on the type, xDecref of the type,
   * conversion of the name and xDecref of the name.
   */
  function NameTrace(attribute: (Handle, string) -> Handle, tr: Triple): seq<Event> {
    var name := attribute(tr.excType, "__name__");
    ReleaseTrace(tr.value) + ReleaseTrace(tr.traceback)
    + [AttrLookup(tr.excType, "__name__", name)] + ReleaseTrace(tr.excType)
    + [Rubified(name)] + ReleaseTrace(name)
  }

  /** The events of one handle_error, in order, for the triple it fetches. */
  function HandleErrorTrace(attribute: (Handle, string) -> Handle, invoke: Handle -> Handle, tr: Triple): seq<Event> {
    [Fetched(tr)] + RenderTrace(attribute, invoke, tr.value) + NameTrace(attribute, tr) + [ErrorCleared(None)]
  }

  /**
   * After rendering, handle_error releases the triple's references and
   * balances the `__name__` reference it takes.
   */
  lemma NameTraceCounts(attribute: (Handle, string) -> Handle, tr: Triple, h: Handle)
    requires attribute(tr.excType, "__name__") != Null
    ensures var name := attribute(tr.excType, "__name__");
            ReleaseCount(NameTrace(attribute, tr), h) == References(tr, h) + (if h == name then 1 else 0)
    ensures Net(NameTrace(attribute, tr), h) == -(References(tr, h) as int)
  {
    var name := attribute(tr.excType, "__name__");
    var p1 := ReleaseTrace(tr.value) + ReleaseTrace(tr.traceback);
    var p2 := p1 + [AttrLookup(tr.excType, "__name__", name)];
    var p3 := p2 + ReleaseTrace(tr.excType);
    var p4 := p3 + [Rubified(name)];
    NetSingle(AttrLookup(tr.excType, "__name__", name), h);
    NetSingle(Rubified(name), h);
    ReleaseTraceCounts(tr.value, h);
    ReleaseTraceCounts(tr.traceback, h);
    ReleaseTraceCounts(tr.excType, h);
    ReleaseTraceCounts(name, h);
    NetAppend(ReleaseTrace(tr.value), ReleaseTrace(tr.traceback), h);
    NetAppend(p1, [AttrLookup(tr.excType, "__name__", name)], h);
    NetAppend(p2, ReleaseTrace(tr.excType), h);
    NetAppend(p3, [Rubified(name)], h);
    NetAppend(p4, ReleaseTrace(name), h);
    ReleaseCountAppend(ReleaseTrace(tr.value), ReleaseTrace(tr.traceback), h);
    ReleaseCountAppend(p1, [AttrLookup(tr.excType, "__name__", name)], h);
    ReleaseCountAppend(p2, ReleaseTrace(tr.excType), h);
    ReleaseCountAppend(p3, [Rubified(name)], h);
    ReleaseCountAppend(p4, ReleaseTrace(name), h);
  }

  /**
   * The rendering step of handle_error: nil for a null value; otherwise looks
   * `__str__` up on the (live) value, calls it with no arguments and converts
   * the result. The two new references it takes are not given back.
   */
  method RenderValue(py: Interpreter, value: Handle) returns (msg: Option<string>)
    requires py.Valid()
    requires value != Null ==> CountIn(py.refcount, value) > 0
    requires value != Null ==> py.attribute(value, "__str__") != Null
                               && py.invoke(py.attribute(value, "__str__")) != Null
    modifies py
    ensures py.Valid() && py.pending == old(py.pending)
    ensures msg == RenderedMessage(py.attribute, py.invoke, py.text, value)
    ensures forall h :: CountIn(py.refcount, h) == CountIn(old(py.refcount), h) + StrTemporaries(py.attribute, py.invoke, value, h)
    ensures py.log == old(py.log) + RenderTrace(py.attribute, py.invoke, value)
  {
    if value != Null {
      ghost var m0 := py.refcount;
      var strMethod := py.GetAttr(value, "__str__");
      ghost var m1 := py.refcount;
      var pyMsg := py.CallObject(strMethod);
      var s := py.Rubify(pyMsg);
      msg := Some(s);
      forall h ensures CountIn(py.refcount, h) == CountIn(m0, h) + StrTemporaries(py.attribute, py.invoke, value, h) {
        CountApply(m0, AttrLookup(value, "__str__", strMethod), h);
        CountApply(m1, Called(strMethod, pyMsg), h);
      }
    } else {
      msg := None;
    }
  }

  /**
   * The release step of handle_error: gives back the value and traceback
   * references, looks `__name__` up on the type while the type is still held,
   * gives back the type, converts the name and gives the name back. The
   * caller must own the triple's references; the error slot must be empty.
   */
  method ReleaseAndName(py: Interpreter, tr: Triple) returns (rbName: string)
    requires py.Valid() && py.pending == None
    requires forall h :: CountIn(py.refcount, h) >= References(tr, h)
    requires tr.excType != Null && py.attribute(tr.excType, "__name__") != Null
    modifies py
    ensures py.Valid() && py.pending == None
    ensures rbName == TypeName(py.attribute, py.text, tr.excType)
    ensures forall h :: CountIn(py.refcount, h) == CountIn(old(py.refcount), h) - References(tr, h)
    ensures py.log == old(py.log) + NameTrace(py.attribute, tr)
  {
    ghost var log0 := py.log;
    ghost var m0 := py.refcount;
    py.XDecref(tr.value);
    ghost var trace := ReleaseTrace(tr.value);
    ghost var m1 := py.refcount;
    py.XDecref(tr.traceback);
    AppendAssoc(log0, trace, ReleaseTrace(tr.traceback));
    trace := trace + ReleaseTrace(tr.traceback);
    ghost var m2 := py.refcount;
    var pyName := py.GetAttr(tr.excType, "__name__");
    AppendAssoc(log0, trace, [AttrLookup(tr.excType, "__name__", pyName)]);
    trace := trace + [AttrLookup(tr.excType, "__name__", pyName)];
    ghost var m3 := py.refcount;

    py.XDecref(tr.excType);
    AppendAssoc(log0, trace, ReleaseTrace(tr.excType));
    trace := trace + ReleaseTrace(tr.excType);
    rbName := py.Rubify(pyName);
    AppendAssoc(log0, trace, [Rubified(pyName)]);
    trace := trace + [Rubified(pyName)];
    py.XDecref(pyName);
    AppendAssoc(log0, trace, ReleaseTrace(pyName));

    forall h ensures CountIn(py.refcount, h) == CountIn(m0, h) - References(tr, h) {
      ReleaseStepsCounts(m0, tr, pyName, h);
    }
  }

  /** The reference-count arithmetic of the release step. */
  lemma ReleaseStepsCounts(m0: map<Handle, int>, tr: Triple, name: Handle, h: Handle)
    requires name != Null
    ensures var m2 := ReleaseIn(ReleaseIn(m0, tr.value), tr.traceback);
            var m4 := ReleaseIn(Apply(m2, AttrLookup(tr.excType, "__name__", name)), tr.excType);
            CountIn(ReleaseIn(m4, name), h) == CountIn(m0, h) - References(tr, h)
  {
    var m1 := ReleaseIn(m0, tr.value);
    var m2 := ReleaseIn(m1, tr.traceback);
    var m3 := Apply(m2, AttrLookup(tr.excType, "__name__", name));
    var m4 := ReleaseIn(m3, tr.excType);
    ReleaseStep(m0, tr.value, h);
    ReleaseStep(m1, tr.traceback, h);
    CountApply(m2, AttrLookup(tr.excType, "__name__", name), h);
    ReleaseStep(m3, tr.excType, h);
    ReleaseStep(m4, name, h);
  }

  /**
   * PythonError.handle_error: fetches the pending exception, renders its
   * value while the value is still held, releases the fetched references and
   * the `__name__` reference, clears the error flag and builds the
   * PythonError from the type name and the rendered message. Every use is on
   * a live reference and every release on one the method owns.
   */
  method HandleError(py: Interpreter) returns (e: PythonError)
    requires py.Valid() && py.pending.Some?
    requires LookupsSucceed(py.attribute, py.invoke, py.pending.value)
    modifies py
    ensures py.Valid() && py.pending == None
    ensures var tr := old(py.pending).value;
            var name := TypeName(py.attribute, py.text, tr.excType);
            e == PythonError(name, DisplayMessage(name, RenderedMessage(py.attribute, py.invoke, py.text, tr.value)))
    ensures var tr := old(py.pending).value;
            forall h :: CountIn(py.refcount, h)
                        == CountIn(old(py.refcount), h) - References(tr, h) + StrTemporaries(py.attribute, py.invoke, tr.value, h)
    ensures py.log == old(py.log) + HandleErrorTrace(py.attribute, py.invoke, old(py.pending).value)
  {
    ghost var log0 := py.log;
    var tr := py.Fetch();
    var msg := RenderValue(py, tr.value);
    ghost var trace := [Fetched(tr)] + RenderTrace(py.attribute, py.invoke, tr.value);
    AppendAssoc(log0, [Fetched(tr)], RenderTrace(py.attribute, py.invoke, tr.value));
    var rbName := ReleaseAndName(py, tr);
    AppendAssoc(log0, trace, NameTrace(py.attribute, tr));
    trace := trace + NameTrace(py.attribute, tr);
    py.Clear();
    AppendAssoc(log0, trace, [ErrorCleared(None)]);
    e := PythonError(rbName, DisplayMessage(rbName, msg));
  }

  /**
   * Each reference handle_error owns is released exactly once: the slot's
   * references to type, value and traceback (one per non-null entry) and the
   * `__name__` reference; nothing else is released.
   */
  lemma HandleErrorReleasesEachOnce(attribute: (Handle, string) -> Handle, invoke: Handle -> Handle,
                                    tr: Triple, h: Handle)
    requires LookupsSucceed(attribute, invoke, tr)
    ensures var name := attribute(tr.excType, "__name__");
            ReleaseCount(HandleErrorTrace(attribute, invoke, tr), h) == References(tr, h) + (if h == name then 1 else 0)
  {
    var p1 := [Fetched(tr)] + RenderTrace(attribute, invoke, tr.value);
    var p2 := p1 + NameTrace(attribute, tr);
    NetSingle(Fetched(tr), h);
    NetSingle(ErrorCleared(None), h);
    RenderTraceCounts(attribute, invoke, tr.value, h);
    NameTraceCounts(attribute, tr, h);
    ReleaseCountAppend([Fetched(tr)], RenderTrace(attribute, invoke, tr.value), h);
    ReleaseCountAppend(p1, NameTrace(attribute, tr), h);
    ReleaseCountAppend(p2, [ErrorCleared(None)], h);
  }

  /**
   * The net effect of handle_error on every reference count: the fetched
   * references are given back and the `__name__` reference is balanced; only
   * the `__str__` method and its result stay counted.
   */
  lemma HandleErrorNet(attribute: (Handle, string) -> Handle, invoke: Handle -> Handle, tr: Triple, h: Handle)
    requires LookupsSucceed(attribute, invoke, tr)
    ensures Net(HandleErrorTrace(attribute, invoke, tr), h)
            == StrTemporaries(attribute, invoke, tr.value, h) - References(tr, h)
  {
    var p1 := [Fetched(tr)] + RenderTrace(attribute, invoke, tr.value);
    var p2 := p1 + NameTrace(attribute, tr);
    NetSingle(Fetched(tr), h);
    NetSingle(ErrorCleared(None), h);
    RenderTraceCounts(attribute, invoke, tr.value, h);
    NameTraceCounts(attribute, tr, h);
    NetAppend([Fetched(tr)], RenderTrace(attribute, invoke, tr.value), h);
    NetAppend(p1, NameTrace(attribute, tr), h);
    NetAppend(p2, [ErrorCleared(None)], h);
  }

  /**
   * With a null value nothing looks `__str__` up or calls anything, the
   * message is nil, and the error's text is the type name followed by ": ".
   */
  lemma NullValueNotRendered(attribute: (Handle, string) -> Handle, invoke: Handle -> Handle,
                             text: Handle -> string, tr: Triple)
    requires tr.value == Null
    ensures RenderedMessage(attribute, invoke, text, tr.value) == None
    ensures var name := TypeName(attribute, text, tr.excType);
            DisplayMessage(name, RenderedMessage(attribute, invoke, text, tr.value)) == name + SEPARATOR
    ensures forall e :: e in HandleErrorTrace(attribute, invoke, tr) ==> !e.Called? && !(e.AttrLookup? && e.name == "__str__")
  {
    var name := attribute(tr.excType, "__name__");
    var events := HandleErrorTrace(attribute, invoke, tr);
    assert |"__name__"| != |"__str__"|;
    assert events == [Fetched(tr)] + ReleaseTrace(tr.traceback) + [AttrLookup(tr.excType, "__name__", name)]
                     + ReleaseTrace(tr.excType) + [Rubified(name)] + ReleaseTrace(name) + [ErrorCleared(None)];
  }

  /** The first events of a handle_error on a non-null value: fetch, `__str__` lookup, call, conversion. */
  lemma FetchRenderOrder(attribute: (Handle, string) -> Handle, invoke: Handle -> Handle, tr: Triple)
    requires tr.value != Null
    ensures var front := [Fetched(tr)] + RenderTrace(attribute, invoke, tr.value);
            var strMethod := attribute(tr.value, "__str__");
            FirstIndex(front, AttrLookup(tr.value, "__str__", strMethod)) == 1
            && FirstIndex(front, Rubified(invoke(strMethod))) == 3
  {
    var strMethod := attribute(tr.value, "__str__");
    var front := [Fetched(tr)] + RenderTrace(attribute, invoke, tr.value);
    assert front == [Fetched(tr), AttrLookup(tr.value, "__str__", strMethod),
                     Called(strMethod, invoke(strMethod)), Rubified(invoke(strMethod))];
    FirstIndexAt(front, AttrLookup(tr.value, "__str__", strMethod), 1);
    FirstIndexAt(front, Rubified(invoke(strMethod)), 3);
  }

  /** A non-null value is looked up, called and converted before it is first released. */
  lemma ValueRenderedBeforeReleased(attribute: (Handle, string) -> Handle, invoke: Handle -> Handle, tr: Triple)
    requires tr.value != Null
    ensures var events := HandleErrorTrace(attribute, invoke, tr);
            var strMethod := attribute(tr.value, "__str__");
            FirstIndex(events, AttrLookup(tr.value, "__str__", strMethod))
              < FirstIndex(events, Rubified(invoke(strMethod)))
              < FirstIndex(events, Released(tr.value))
              < |events|
  {
    var strMethod := attribute(tr.value, "__str__");
    var lookup, convert, release := AttrLookup(tr.value, "__str__", strMethod), Rubified(invoke(strMethod)), Released(tr.value);
    var front := [Fetched(tr)] + RenderTrace(attribute, invoke, tr.value);
    var names := NameTrace(attribute, tr);
    FetchRenderOrder(attribute, invoke, tr);
    FirstIndexInFront(front + names, [ErrorCleared(None)], lookup);
    FirstIndexInFront(front, names, lookup);
    FirstIndexInFront(front + names, [ErrorCleared(None)], convert);
    FirstIndexInFront(front, names, convert);
    FetchRenderExcludes(attribute, invoke, tr, tr.value, tr.excType, Null);
    assert names[0] == release;
    FirstIndexInMiddle(front, names, [ErrorCleared(None)], release);
  }

  /** Within the naming events, `__name__` is looked up before the type is first released. */
  lemma NameTraceTypeOrder(attribute: (Handle, string) -> Handle, tr: Triple)
    requires tr.excType != Null && tr.excType != tr.value && tr.excType != tr.traceback
    ensures var names := NameTrace(attribute, tr);
            var lookup := AttrLookup(tr.excType, "__name__", attribute(tr.excType, "__name__"));
            lookup in names && Released(tr.excType) in names
            && FirstIndex(names, lookup) < FirstIndex(names, Released(tr.excType))
  {
    var name := attribute(tr.excType, "__name__");
    var lookup, release := AttrLookup(tr.excType, "__name__", name), Released(tr.excType);
    var released := ReleaseTrace(tr.value) + ReleaseTrace(tr.traceback);
    assert NameTrace(attribute, tr) == released + [lookup] + [release] + [Rubified(name)] + ReleaseTrace(name);
    assert lookup !in released && release !in released;
    FirstIndexAdjacent(released, lookup, release, [Rubified(name)], ReleaseTrace(name));
  }

  /**
   * `__name__` is looked up on the type before the type is first released,
   * when the type is not also the value or the traceback.
   */
  lemma NameLookedUpBeforeTypeReleased(attribute: (Handle, string) -> Handle, invoke: Handle -> Handle, tr: Triple)
    requires tr.excType != Null && tr.excType != tr.value && tr.excType != tr.traceback
    ensures var events := HandleErrorTrace(attribute, invoke, tr);
            var name := attribute(tr.excType, "__name__");
            FirstIndex(events, AttrLookup(tr.excType, "__name__", name))
              < FirstIndex(events, Released(tr.excType))
              < |events|
  {
    var name := attribute(tr.excType, "__name__");
    var lookup, release := AttrLookup(tr.excType, "__name__", name), Released(tr.excType);
    var front := [Fetched(tr)] + RenderTrace(attribute, invoke, tr.value);
    var names := NameTrace(attribute, tr);
    NameTraceTypeOrder(attribute, tr);
    FetchRenderExcludes(attribute, invoke, tr, tr.excType, tr.excType, name);
    FirstIndexInMiddle(front, names, [ErrorCleared(None)], lookup);
    FirstIndexInMiddle(front, names, [ErrorCleared(None)], release);
  }

  /** Within the naming events, the `__name__` object is converted before it is first released. */
  lemma NameTraceNameOrder(attribute: (Handle, string) -> Handle, tr: Triple)
    requires var name := attribute(tr.excType, "__name__");
             name != Null && name != tr.excType && name != tr.value && name != tr.traceback
    ensures var names := NameTrace(attribute, tr);
            var name := attribute(tr.excType, "__name__");
            FirstIndex(names, Released(name)) == |names| - 1
            && FirstIndex(names, Rubified(name)) < |names| - 1
  {
    var name := attribute(tr.excType, "__name__");
    var release := Released(name);
    var before := ReleaseTrace(tr.value) + ReleaseTrace(tr.traceback)
                  + [AttrLookup(tr.excType, "__name__", name)] + ReleaseTrace(tr.excType);
    assert NameTrace(attribute, tr) == before + [Rubified(name)] + [release];
    assert release !in before;
    FirstIndexBeforeLast(before, Rubified(name), release);
  }

  /**
   * The `__name__` object is converted before it is first released, when it
   * is none of the fetched handles.
   */
  lemma NameConvertedBeforeReleased(attribute: (Handle, string) -> Handle, invoke: Handle -> Handle, tr: Triple)
    requires var name := attribute(tr.excType, "__name__");
             name != Null && name != tr.excType && name != tr.value && name != tr.traceback
    ensures var events := HandleErrorTrace(attribute, invoke, tr);
            var name := attribute(tr.excType, "__name__");
            FirstIndex(events, Rubified(name)) < FirstIndex(events, Released(name)) < |events|
  {
    var name := attribute(tr.excType, "__name__");
    var convert, release := Rubified(name), Released(name);
    var front := [Fetched(tr)] + RenderTrace(attribute, invoke, tr.value);
    var names := NameTrace(attribute, tr);
    NameTraceNameOrder(attribute, tr);
    FetchRenderExcludes(attribute, invoke, tr, name, tr.excType, name);
    FirstIndexInFront(front + names, [ErrorCleared(None)], convert);
    FirstIndexAppend(front, names, convert);
    FirstIndexInMiddle(front, names, [ErrorCleared(None)], release);
  }
}
