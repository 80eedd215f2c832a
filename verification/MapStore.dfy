/** mapstore.go: one map kept as one document in the secret store, read and
    rewritten as a whole. The text form of the document is not modelled; an
    absent or empty entry reads as the empty map. */
module MapStore {
  import opened Wrappers

  /** What an update function makes of the loaded map: the map after it, and
      whether anything changed. */
  datatype Change<V> = Change(doc: map<string, V>, changed: bool)

  type Update<!V> = map<string, V> -> Change<V>

  /** The document after one mutate call. */
  function Mutated<V>(doc: map<string, V>, fn: Update<V>, io: Io): map<string, V> {
    if io.Works? && fn(doc).changed then fn(doc).doc else doc
  }

  /** Whether that call reports success: an unchanged map is never written. */
  predicate MutateOk<V>(doc: map<string, V>, fn: Update<V>, io: Io) {
    io.Works? || (io.SetFails? && !fn(doc).changed)
  }

  function Put<V>(k: string, v: V): Update<V> {
    (m: map<string, V>) => Change(m[k := v], true)
  }

  function Drop<V>(k: string): Update<V> {
    (m: map<string, V>) => if k in m then Change(m - {k}, true) else Change(m, false)
  }

  /** One key of the secret store. */
  class Entry<V> {
    var doc: Option<map<string, V>>

    constructor ()
      ensures doc == None
    {
      doc := None;
    }

    /** The map the key holds, empty while there is none. */
    function Contents(): map<string, V>
      reads this
    {
      if doc.Some? then doc.value else map[]
    }

    method Get(io: Io) returns (r: Result<Option<map<string, V>>>)
      ensures r == if io.GetFails? then Err else Ok(doc)
    {
      r := if io.GetFails? then Err else Ok(doc);
    }

    method Set(m: map<string, V>, io: Io) returns (ok: bool)
      modifies this
      ensures ok == io.Works?
      ensures doc == if ok then Some(m) else old(doc)
    {
      ok := io.Works?;
      if ok {
        doc := Some(m);
      }
    }
  }

  /** jsonMapStore. Two stores may share one entry. */
  class JsonMapStore<V> {
    const entry: Entry<V>

    constructor (entry: Entry<V>)
      ensures this.entry == entry
    {
      this.entry := entry;
    }

    function Contents(): map<string, V>
      reads entry
    {
      entry.Contents()
    }

    method Load(io: Io) returns (r: Result<map<string, V>>)
      ensures r == if io.GetFails? then Err else Ok(Contents())
    {
      var v := entry.Get(io);
      if v.Err? {
        return Err;
      }
      r := Ok(if v.value.Some? then v.value.value else map[]);
    }

    method Save(m: map<string, V>, io: Io) returns (ok: bool)
      modifies entry
      ensures ok == io.Works?
      ensures Contents() == if ok then m else old(Contents())
    {
      ok := entry.Set(m, io);
    }

    method Get(k: string, io: Io) returns (r: Result<Option<V>>)
      ensures r == if io.GetFails? then Err else Ok(if k in Contents() then Some(Contents()[k]) else None)
    {
      var m := Load(io);
      if m.Err? {
        return Err;
      }
      r := Ok(if k in m.value then Some(m.value[k]) else None);
    }

    method Mutate(fn: Update<V>, io: Io) returns (ok: bool)
      modifies entry
      ensures ok == MutateOk(old(Contents()), fn, io)
      ensures Contents() == Mutated(old(Contents()), fn, io)
    {
      var m := Load(io);
      if m.Err? {
        return false;
      }
      var change := fn(m.value);
      if !change.changed {
        return true;
      }
      ok := Save(change.doc, io);
    }
  }
}
