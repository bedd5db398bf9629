/**
 * The state store of the bot (PersistenceModule): one JSON file per key, a
 * process-wide cached state shared by every key, and the proxy that saves the
 * whole object under its key whenever one of its fields is assigned.
 *
 * The file system is a map from key to record; a record that cannot be read or
 * parsed is `Unreadable`. Objects have identity (`JsObject`), because the cached
 * state and the proxy handed to the caller are the same object.
 */
module Persistence {
  import opened Wrappers
  import opened Json

  /** The file `<key>.json`: parsed JSON, or content that cannot be read or parsed. */
  datatype Record = Stored(value: Value) | Unreadable

  /** A JavaScript object in memory; its properties are assigned in place. */
  class JsObject {
    var fields: map<string, Value>

    constructor (fields0: map<string, Value>)
      ensures fields == fields0
    {
      fields := fields0;
    }
  }

  /**
   * A value the program holds: a primitive, a plain object, or an object behind the
   * proxy whose `set` trap saves the object under `key`.
   */
  datatype Handle =
    | Scalar(v: Value)
    | Raw(obj: JsObject)
    | Proxied(obj: JsObject, key: string)
  {
    predicate IsObject() {
      !Scalar?
    }

    /** Objects are always held by reference, never inside a `Scalar`. */
    predicate WellFormed() {
      Scalar? ==> !v.Obj?
    }

    predicate IsTruthy() {
      Scalar? ==> Truthy(v)
    }
  }

  /** What a handle holds, read as a JSON value. */
  function Snapshot(h: Handle): Value
    reads if h.Scalar? then {} else {h.obj}
  {
    if h.Scalar? then h.v else Obj(h.obj.fields)
  }

  /** `defaultValue || {}`: the value used when the file gives nothing usable. */
  function Fallback(default: Value): (r: Value)
    ensures Truthy(r)
    ensures r == default || (!Truthy(default) && r == Obj(map[]))
  {
    if Truthy(default) then default else Obj(map[])
  }

  /** What `loadState` hands back: a value, and whether writes to it are saved. */
  datatype Loaded = Loaded(value: Value, proxied: bool)

  /**
   * The result of `loadState(key, default)` on the files `files`. A missing file gives
   * `default || {}`. A file that parses to an object gives that object behind the
   * saving proxy. A file that cannot be read or parsed, or that parses to a primitive
   * (`new Proxy` refuses a primitive target and the catch block takes over), gives
   * `default || {}` without a proxy.
   */
  function Load(files: map<string, Record>, key: string, default: Value): (r: Loaded)
    ensures Truthy(r.value)
    ensures r.value.Obj? || r.value == default
    ensures r.proxied ==> r.value.Obj?
    ensures key !in files ==> r == Loaded(Fallback(default), Fallback(default).Obj?)
    ensures key in files && (files[key].Unreadable? || !files[key].value.Obj?) ==> r == Loaded(Fallback(default), false)
    ensures key in files && files[key].Stored? && files[key].value.Obj? ==> r == Loaded(files[key].value, true)
  {
    if key !in files then
      var f := Fallback(default);
      Loaded(f, f.Obj?)
    else
      match files[key]
      case Unreadable => Loaded(Fallback(default), false)
      case Stored(v) => if v.Obj? then Loaded(v, true) else Loaded(Fallback(default), false)
  }

  /**
   * What `loadState` leaves in the process-wide cache: the value it assigned, or None
   * when reading or parsing failed before the assignment.
   */
  function CachedByLoad(files: map<string, Record>, key: string, default: Value): (r: Option<Value>)
    ensures r.None? <==> key in files && files[key].Unreadable?
    ensures r.Some? && key in files ==> files[key] == Stored(r.value)
    ensures key !in files ==> r == Some(Load(files, key, default).value)
  {
    if key !in files then Some(Fallback(default))
    else
      match files[key]
      case Unreadable => None
      case Stored(v) => Some(v)
  }

  /** Saving an object and loading the same key gives the object back, behind the proxy. */
  lemma SaveThenLoad(files: map<string, Record>, key: string, v: Value, default: Value)
    requires v.Obj?
    ensures Load(files[key := Stored(v)], key, default) == Loaded(v, true)
  {
  }

  /** A saved primitive is never read back: loading it gives the default instead. */
  lemma SaveThenLoadPrimitive(files: map<string, Record>, key: string, v: Value, default: Value)
    requires !v.Obj?
    ensures Load(files[key := Stored(v)], key, default) == Loaded(Fallback(default), false)
  {
  }

  /** Writing the record of one key does not change what another key loads. */
  lemma LoadOtherKey(files: map<string, Record>, key: string, r: Record, other: string, default: Value)
    requires other != key
    ensures Load(files[key := r], other, default) == Load(files, other, default)
    ensures CachedByLoad(files[key := r], other, default) == CachedByLoad(files, other, default)
  {
  }

  /**
   * A fresh value built from JSON (a parse result or an object literal): objects get a
   * new identity.
   */
  method Materialize(v: Value) returns (h: Handle)
    ensures h.WellFormed() && !h.Proxied? && Snapshot(h) == v
    ensures h.Raw? ==> fresh(h.obj)
  {
    if v.Obj? {
      var o := new JsObject(v.fields);
      h := Raw(o);
    } else {
      h := Scalar(v);
    }
  }

  class Store {
    /** The state files, by key. */
    var files: map<string, Record>
    /** `PersistenceModule.state`: one cache for the whole process, whatever the key. */
    var state: Handle

    ghost predicate Valid()
      reads this
    {
      state.WellFormed()
    }

    constructor (files0: map<string, Record>)
      ensures Valid() && files == files0 && state == Scalar(Undefined)
    {
      files := files0;
      state := Scalar(Undefined);
    }

    /** `saveState`: overwrite the file of `key` with `value`; no other file changes. */
    method SaveState(key: string, value: Value)
      modifies this`files
      ensures files == old(files)[key := Stored(value)]
    {
      files := files[key := Stored(value)];
    }

    /** `loadState`: read the file of `key`, never writing any file. */
    method LoadState(key: string, default: Value) returns (r: Handle)
      requires Valid()
      modifies this`state
      ensures Valid() && r.WellFormed()
      ensures Snapshot(r) == Load(files, key, default).value
      ensures r.Proxied? == Load(files, key, default).proxied
      ensures r.Proxied? ==> r.key == key
      ensures r.IsObject() ==> fresh(r.obj)
      ensures CachedByLoad(files, key, default).None? ==> state == old(state)
      ensures CachedByLoad(files, key, default).Some? ==>
                && Snapshot(state) == CachedByLoad(files, key, default).value
                && !state.Proxied?
                && (state.IsObject() ==> fresh(state.obj))
                && (state.IsObject() && r.IsObject() ==> state.obj == r.obj)
    {
      if key !in files {
        var fallback := Materialize(Fallback(default));
        state := fallback;
        if fallback.Raw? {
          r := Proxied(fallback.obj, key);
        } else {
          // the proxy refuses a primitive target; the catch block returns `default || {}`
          r := fallback;
        }
      } else if files[key].Unreadable? {
        r := Materialize(Fallback(default));
      } else {
        var parsed := Materialize(files[key].value);
        state := parsed;
        if parsed.Raw? {
          r := Proxied(parsed.obj, key);
        } else {
          r := Materialize(Fallback(default));
        }
      }
    }

    /**
     * `getState`: load only while the cache is falsy; afterwards hand back the cached
     * object, whatever key is asked for.
     */
    method GetState(key: string, default: Value) returns (r: Handle)
      requires Valid()
      modifies this`state
      ensures Valid() && r == state && r.IsTruthy()
      ensures old(state).IsTruthy() ==> state == old(state)
      ensures !old(state).IsTruthy() ==>
                && Snapshot(r) == Load(files, key, default).value
                && r.Proxied? == Load(files, key, default).proxied
                && (r.IsObject() ==> fresh(r.obj))
    {
      if !state.IsTruthy() {
        state := LoadState(key, default);
      }
      r := state;
    }

    /**
     * Assignment `h[prop] = v`. Through the proxy the whole object is then saved under
     * the proxy's key; on a plain object nothing is written.
     */
    method SetField(h: Handle, prop: string, v: Value)
      requires h.IsObject()
      modifies h.obj, this`files
      ensures h.obj.fields == old(h.obj.fields)[prop := v]
      ensures files == if h.Proxied? then old(files)[h.key := Stored(Obj(h.obj.fields))] else old(files)
    {
      h.obj.fields := h.obj.fields[prop := v];
      if h.Proxied? {
        SaveState(h.key, Obj(h.obj.fields));
      }
    }
  }
}
