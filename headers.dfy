/**
 * Request headers as a map from header name to value, updated in place by an
 * overwriting `Set`, together with the pure fold that says what a sequence of
 * `Set` calls leaves behind.
 */
module Headers {
  import opened Wrappers

  /** One `Header.Set(name, value)` call. */
  datatype Write = Write(name: string, value: string)

  /** The header map after performing the `Set` calls of `ws`, in order, on `h`. */
  function ApplyAll(h: map<string, string>, ws: seq<Write>): map<string, string>
  {
    if ws == [] then h
    else
      var last := ws[|ws| - 1];
      ApplyAll(h, ws[..|ws| - 1])[last.name := last.value]
  }

  /** The value of the last write to `name` in `ws`, if any. */
  function LastWrite(ws: seq<Write>, name: string): Option<string>
  {
    if ws == [] then None
    else if ws[|ws| - 1].name == name then Some(ws[|ws| - 1].value)
    else LastWrite(ws[..|ws| - 1], name)
  }

  /** A header is present after the writes iff it was present before or was written;
      its value is that of the last write to it, or the old one. */
  lemma {:induction false} ApplyAllAt(h: map<string, string>, ws: seq<Write>, name: string)
    ensures name in ApplyAll(h, ws) <==> name in h || LastWrite(ws, name).Some?
    ensures name in ApplyAll(h, ws) ==>
      ApplyAll(h, ws)[name] == (if LastWrite(ws, name).Some? then LastWrite(ws, name).value else h[name])
  {
    if ws != [] {
      ApplyAllAt(h, ws[..|ws| - 1], name);
    }
  }

  /** Performing `a` and then `b` is performing `a + b`. */
  lemma {:induction false} ApplyAllAppend(h: map<string, string>, a: seq<Write>, b: seq<Write>)
    ensures ApplyAll(h, a + b) == ApplyAll(ApplyAll(h, a), b)
  {
    if b == [] {
      assert a + b == a;
    } else {
      assert (a + b)[..|a + b| - 1] == a + b[..|b| - 1];
      ApplyAllAppend(h, a, b[..|b| - 1]);
    }
  }

  /** The last write to a name in `a + b` is its last write in `b`, else in `a`. */
  lemma {:induction false} LastWriteAppend(a: seq<Write>, b: seq<Write>, name: string)
    ensures LastWrite(a + b, name) == if LastWrite(b, name).Some? then LastWrite(b, name) else LastWrite(a, name)
  {
    if b == [] {
      assert a + b == a;
    } else {
      assert (a + b)[..|a + b| - 1] == a + b[..|b| - 1];
      LastWriteAppend(a, b[..|b| - 1], name);
    }
  }

  /** A name no write in `ws` targets has no last write. */
  lemma {:induction false} LastWriteAbsent(ws: seq<Write>, name: string)
    requires forall w | w in ws :: w.name != name
    ensures LastWrite(ws, name) == None
  {
    if ws != [] {
      assert forall w | w in ws[..|ws| - 1] :: w in ws;
      LastWriteAbsent(ws[..|ws| - 1], name);
    }
  }

  /** Every write is an overwriting `Set`, so performing the same writes a second time
      changes nothing. */
  lemma ApplyAllIdempotent(h: map<string, string>, ws: seq<Write>)
    ensures ApplyAll(ApplyAll(h, ws), ws) == ApplyAll(h, ws)
  {
    var once := ApplyAll(h, ws);
    var twice := ApplyAll(once, ws);
    forall name | name in once || name in twice
      ensures name in once && name in twice && twice[name] == once[name]
    {
      ApplyAllAt(h, ws, name);
      ApplyAllAt(once, ws, name);
    }
  }

  /** The header set of one request (Go's `http.Header`, with one value per name). */
  class Header {
    var entries: map<string, string>

    constructor (initial: map<string, string>)
      ensures entries == initial
    {
      entries := initial;
    }

    /** Replaces any value held under `name` by `value`. */
    method Set(name: string, value: string)
      modifies this
      ensures entries == old(entries)[name := value]
    {
      entries := entries[name := value];
    }
  }
}
