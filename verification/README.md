# RubyPython PythonError, modelled in Dafny

RubyPython embeds a CPython interpreter in Ruby. When a call into Python
leaves an exception pending, `RubyPython::PythonError.handle_error` turns it
into a Ruby `PythonError`. It fetches the interpreter's (type, value,
traceback) triple with PyErr_Fetch and renders the value through its
`__str__` method. It then gives back the references it owns with `xDecref`,
reads the type's `__name__`, clears the interpreter's error flag with
PyErr_Clear and builds the error. Its message is
`[typeName, msg].join(': ')`.

The model has three files:

- `util.dfy` (module `Util`): an `Option` type and `FirstIndex`, the
  position of an element's first occurrence in a sequence, with lemmas
  about concatenations. The ordering properties are stated with it.
- `runtime.dfy` (module `PyRuntime`): the interpreter as the error bridge
  sees it.
  - The class `Interpreter` holds the error slot `pending`, a map
    `refcount` from handles to reference counts, and a ghost `log` of every
    reference-count event.
  - Its methods model PyErr_Fetch, PyErr_Clear and PyErr_Occurred, plus the
    PyObject operations the bridge calls: `getAttr`, `callObject` with an
    empty argument tuple, `rubify` and `xDecref`.
  - Every use of a handle requires it to be live (count above zero).
  - Every `xDecref` requires the handle's count to exceed the references
    the error slot still holds. Which holder a reference belongs to is not
    tracked; that handle_error gives back exactly the references it took is
    proved from its exact counts and event trace, not from this requirement.
  - `Delta`/`Apply` give each event's effect on the counts.
  - `Net` and `ReleaseCount` sum those effects, and the releases, over a
    sequence of events.
- `python_error.dfy` (module `PythonErrors`): the `PythonError` value,
  its message, and `handle_error` as the method `HandleError`. HandleError
  calls `RenderValue` (lines 22-27) and `ReleaseAndName` (lines 29-37).
  - `HandleErrorTrace` is the exact event sequence of one call.
  - The lemmas about that sequence state the ownership discipline.

What an attribute lookup finds, what a call returns and what Ruby string an
object converts to are not interpreted. They are the function fields
`attribute`, `invoke` and `text` of `Interpreter`. Handles may alias: a
triple may hold the same object twice, and `References(tr, h)` counts every
entry equal to `h`.

A PythonError without a message is sometimes described as showing only its
type name. The model follows the code instead: Ruby's `Array#join` renders
`nil` as the empty string, so the text is the type name followed by `": "`.
`DisplayMessage` and `NullValueNotRendered` state this.

## Model

| member | source | states |
|---|---|---|
| PythonErrors.DisplayMessage | lib/rubypython/pythonerror.rb:8-11 | the message is the type name, ": ", then the message, with nil rendered as "": a nil message gives `typeName + ": "` |
| PythonErrors.SplitDisplayMessage | lib/rubypython/pythonerror.rb:8-11 | for a type name without ':', splitting the message at its first ": " gives back the type name and the rendered message |
| PyRuntime.Interpreter.ErrorOccurred | lib/rubypython/pythonerror.rb:61-63 | `error?` is true exactly when an exception is pending, because PyErr_Occurred is the pending type pointer and that is never null |
| PyRuntime.Interpreter.Fetch | lib/rubypython/pythonerror.rb:47-57 | returns the pending triple in the order (type, value, traceback), or three nulls when nothing is pending; the slot is then empty; counts are unchanged, and the count of each handle is at least the number of triple entries equal to it; one Fetched event is logged |
| PyRuntime.Interpreter.Clear | lib/rubypython/pythonerror.rb:67-69 | empties the slot and drops the references it still held; on an empty slot the counts do not change (idempotent) |
| PyRuntime.Interpreter.GetAttr | lib/rubypython/pythonerror.rb:33 | looks an attribute up on a live non-null object, returns the attribute and takes one new reference to it; the slot is unchanged |
| PyRuntime.Interpreter.CallObject | lib/rubypython/pythonerror.rb:23 | calls a live object with no arguments, returns the result and takes one new reference to it |
| PyRuntime.Interpreter.Rubify | lib/rubypython/pythonerror.rb:24 | converts a live object to its Ruby string; the slot and the counts are unchanged; one Rubified event is logged |
| PyRuntime.Interpreter.XDecref | lib/rubypython/pythonerror.rb:31-37 | a null handle changes nothing; otherwise exactly that handle's count drops by one; the count must exceed the references the error slot still holds, so the slot's own references are never released; the slot is unchanged |
| PythonErrors.RenderValue | lib/rubypython/pythonerror.rb:22-27 | nil for a null value with no lookup or call; otherwise the value's `__str__()` as a Ruby string; the bound method and its result each stay counted once more |
| PythonErrors.ReleaseAndName | lib/rubypython/pythonerror.rb:29-37 | returns the type's `__name__` as a Ruby string; gives back every fetched reference and balances the `__name__` reference; logs value, traceback, lookup, type, convert and name events in that order |
| PythonErrors.HandleError | lib/rubypython/pythonerror.rb:19-41 | afterwards no error is pending; the error is `PythonError(name, DisplayMessage(name, rendered value))`; every count ends at its old value minus the fetched references plus the `__str__` temporaries; the log gains exactly `HandleErrorTrace` |
| PythonErrors.HandleErrorReleasesEachOnce | lib/rubypython/pythonerror.rb:29-37 | over one handle_error, each handle is released exactly as often as the fetched triple refers to it, plus once for the `__name__` object, and nothing else is released |
| PythonErrors.HandleErrorNet | lib/rubypython/pythonerror.rb:19-41 | the net count change over the event sequence is the `__str__` temporaries minus the fetched references |
| PythonErrors.RenderTraceCounts | lib/rubypython/pythonerror.rb:22-27 | rendering releases nothing and leaves the bound `__str__` method and its result counted once more each |
| PythonErrors.NameTraceCounts | lib/rubypython/pythonerror.rb:29-37 | the release steps release each fetched reference once and the name once, and their net change is minus the fetched references |
| PythonErrors.NullValueNotRendered | lib/rubypython/pythonerror.rb:22-27 | with a null value no `__str__` lookup and no call happen, the message is nil, and the error text is the type name followed by ": " |
| PythonErrors.ValueRenderedBeforeReleased | lib/rubypython/pythonerror.rb:22-31 | a non-null value's `__str__` lookup comes before the conversion of its result, which comes before the value's first release |
| PythonErrors.NameLookedUpBeforeTypeReleased | lib/rubypython/pythonerror.rb:33-35 | `__name__` is looked up on the type before the type's first release, when the type is not also the value or the traceback |
| PythonErrors.NameConvertedBeforeReleased | lib/rubypython/pythonerror.rb:33-37 | the `__name__` object is converted before its first release, when it is none of the fetched handles |

## Left out

- FFI plumbing (`FFI::MemoryPointer` and `read_pointer`, lines 48-56): `Fetch` returns the three handles directly.
- PyObject internals: `getAttr`, `callObject`, `rubify` and `null?` are the uninterpreted functions `attribute`, `invoke` and `text` plus comparison with `Null`.
- `buildArgTuple`: the empty argument tuple is not modelled as an object. Its own reference is not tracked.
- The failure path in which `__str__`, the call or `__name__` raises in Python (lines 23 and 33): `HandleError` requires `LookupsSucceed`. On that path the source skips the releases and the `clear`, and the model claims nothing about it.
- PythonErrors.HandleError: requires a pending exception. The source does not check this, and with nothing pending it calls `getAttr` on a null type (line 33).
- Garbage-collection finalisers: the `__str__` method and its result are never released by `handle_error`. The model leaves them counted (`StrTemporaries`) and does not model the wrappers' finalisers.
- Object deallocation when a count reaches zero is not modelled. Counts are plain integers.
- PyRuntime.Interpreter.XDecref: does not track who owns a reference. It only requires the count to exceed the slot's references, so a caller could give back a reference it never took; `HandleError`'s exact counts and trace show that handle_error does not.
- Ruby's exception hierarchy (`RuntimeError` as superclass), interpreter start and stop, and threading.
- How an exception becomes pending: the `Interpreter` constructor takes the initial slot and counts. Python raising is not modelled.
- PythonErrors.NameLookedUpBeforeTypeReleased: proved only when the type is neither the value nor the traceback. Otherwise an earlier release of the same object comes first.
- PythonErrors.NameConvertedBeforeReleased: proved only when the name object is none of the fetched handles, for the same reason.
