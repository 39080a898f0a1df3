/** One custom resource in the API server: a versioned object that is replaced only by a writer who
    names the version it has read, and that lingers after a delete request while it holds a finalizer. */
module ApiStore {
  import opened Base

  datatype Object<S, T> = Object(uid: nat, version: nat, deleting: bool, finalizer: bool, spec: S, status: T)

  /** `past` keeps every version ever stored, because a cached read may return any of them.
      Versions are never reused, not even by a later object under the same name. */
  datatype Store<!S(==), !T(==)> =
    Store(cur: Option<Object<S, T>>, past: map<nat, Object<S, T>>, nextVersion: nat, nextUid: nat)

  function Empty<S(==), T(==)>(): Store<S, T> { Store(None, map[], 0, 0) }

  /** Store `o` under the next version number. */
  function Put<S(==), T(==)>(st: Store<S, T>, o: Object<S, T>): Store<S, T> {
    var o' := o.(version := st.nextVersion);
    st.(cur := Some(o'), past := st.past[st.nextVersion := o'], nextVersion := st.nextVersion + 1)
  }

  function Create<S(==), T(==)>(st: Store<S, T>, spec: S, status: T): Store<S, T>
    requires st.cur.None?
  {
    Put(st.(nextUid := st.nextUid + 1), Object(st.nextUid, 0, false, false, spec, status))
  }

  /** A delete request: marks an object that holds a finalizer, removes one that does not. */
  function Delete<S(==), T(==)>(st: Store<S, T>): Store<S, T> {
    match st.cur
    case None => st
    case Some(o) =>
      if !o.finalizer then st.(cur := None)
      else if o.deleting then st
      else Put(st, o.(deleting := true))
  }

  function EditSpec<S(==), T(==)>(st: Store<S, T>, spec: S): Store<S, T> {
    if st.cur.None? then st else Put(st, st.cur.value.(spec := spec))
  }

  /** Optimistic locking: a write based on `base` can only take effect while `base` is current. */
  predicate Current<S(==), T(==)>(st: Store<S, T>, base: Object<S, T>) {
    st.cur.Some? && st.cur.value.version == base.version
  }

  function AddFinalizer<S(==), T(==)>(st: Store<S, T>, base: Object<S, T>): Store<S, T> {
    if Current(st, base) then Put(st, st.cur.value.(finalizer := true)) else st
  }

  /** Removing the only finalizer of an object marked for deletion removes the object. */
  function DropFinalizer<S(==), T(==)>(st: Store<S, T>, base: Object<S, T>): Store<S, T> {
    if !Current(st, base) then st
    else if st.cur.value.deleting then st.(cur := None)
    else Put(st, st.cur.value.(finalizer := false))
  }

  function WriteStatus<S(==), T(==)>(st: Store<S, T>, base: Object<S, T>, status: T): Store<S, T> {
    if Current(st, base) then Put(st, st.cur.value.(status := status)) else st
  }

  predicate Was<S(==), T(==)>(st: Store<S, T>, o: Object<S, T>) {
    o.version in st.past && st.past[o.version] == o
  }

  /** What a cached Get answers: nothing under that name, an error, or an object. */
  datatype Fetch<S, T> = Nothing | NoReply | Got(o: Object<S, T>)

  ghost predicate Ok<S, T>(st: Store<S, T>) {
    && (st.cur.Some? ==> Was(st, st.cur.value))
    && (forall v | v in st.past :: v < st.nextVersion && st.past[v].version == v && st.past[v].uid < st.nextUid)
  }

  /** How a store may develop in one step: versions and uids only grow, history is kept, and the
      object under the key is either the same lifetime or one with a uid never used before. */
  ghost predicate Advances<S, T>(a: Store<S, T>, b: Store<S, T>) {
    && a.nextVersion <= b.nextVersion
    && a.nextUid <= b.nextUid
    && (forall v | v in a.past :: v in b.past && b.past[v] == a.past[v])
    && (b.cur.Some? ==>
          || b.cur == a.cur
          || (b.cur.value.version >= a.nextVersion
              && (b.cur.value.uid >= a.nextUid || (a.cur.Some? && a.cur.value.uid == b.cur.value.uid))))
  }

  /** Storing a new version of the current object, or of one with an unused uid. */
  lemma PutAdvances<S, T>(st: Store<S, T>, o: Object<S, T>)
    requires Ok(st) && st.cur.Some? && o.uid == st.cur.value.uid
    ensures Ok(Put(st, o)) && Advances(st, Put(st, o))
  {
  }

  lemma CreateAdvances<S, T>(st: Store<S, T>, spec: S, status: T)
    requires Ok(st) && st.cur.None?
    ensures Ok(Create(st, spec, status)) && Advances(st, Create(st, spec, status))
  {
  }

  /** An object that is not current now will not become current again. */
  lemma StaleStaysStale<S, T>(a: Store<S, T>, b: Store<S, T>, o: Object<S, T>)
    requires Ok(a) && Advances(a, b) && Was(a, o) && !Current(a, o)
    ensures !Current(b, o)
  {
  }
}
