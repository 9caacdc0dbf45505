/** The Kubernetes object store as the controllers see it: objects with
    finalizers and deletion timestamps, written through calls that may fail
    with or without having taken effect. */
module KubeStore {
  import opened Base

  datatype Name = Name(name: string, namespace: string)

  const NO_NAME := Name("", "")

  datatype Meta = Meta(finalizers: seq<string>, deleted: Option<int>, labels: map<string, string>, owners: seq<string>)

  datatype Object<+S, +T> = Object(meta: Meta, spec: S, status: T)

  type Objects<S, T> = map<Name, Object<S, T>>

  /** What happens to one call: it works, its error hides no effect, or the
      effect took place although the caller sees an error. */
  datatype Fault = NoFault | Lost | Applied

  datatype CreateResult = Created | AlreadyExists | CreateFailed

  datatype DeleteResult = Deleted | NotFound | DeleteFailed

  predicate Subset(a: seq<string>, b: seq<string>) {
    forall f :: f in a ==> f in b
  }

  /** An update needs a stored object, and may not add a finalizer to an object being deleted. */
  predicate Accepts<S, T>(m: Objects<S, T>, name: Name, o: Object<S, T>) {
    name in m && (m[name].meta.deleted.Some? ==> Subset(o.meta.finalizers, m[name].meta.finalizers))
  }

  /** An accepted update keeps the status and the deletion timestamp; an object
      being deleted goes away with its last finalizer. */
  function Stored<S, T>(m: Objects<S, T>, name: Name, o: Object<S, T>): Objects<S, T>
    requires name in m
  {
    if m[name].meta.deleted.Some? && o.meta.finalizers == [] then m - {name}
    else m[name := Object(o.meta.(deleted := m[name].meta.deleted), o.spec, m[name].status)]
  }

  /** Client.Update. */
  function Update<S, T>(m: Objects<S, T>, name: Name, o: Object<S, T>, fault: Fault): (r: (Objects<S, T>, bool))
    ensures r.1 ==> fault.NoFault? && Accepts(m, name, o) && r.0 == Stored(m, name, o)
    ensures r.0 == m || (Accepts(m, name, o) && r.0 == Stored(m, name, o))
  {
    if fault.Lost? || !Accepts(m, name, o) then (m, false) else (Stored(m, name, o), fault.NoFault?)
  }

  /** Client.Status().Update: only the status is written. */
  function UpdateStatus<S, T>(m: Objects<S, T>, name: Name, status: T, fault: Fault): (r: (Objects<S, T>, bool))
    ensures r.1 ==> fault.NoFault? && name in m && r.0 == m[name := m[name].(status := status)]
    ensures r.0 == m || (name in m && r.0 == m[name := m[name].(status := status)])
  {
    if fault.Lost? || name !in m then (m, false)
    else (m[name := m[name].(status := status)], fault.NoFault?)
  }

  /** Client.Create. */
  function Create<S, T>(m: Objects<S, T>, name: Name, o: Object<S, T>, fault: Fault): (r: (Objects<S, T>, CreateResult))
    ensures r.1.Created? ==> name !in m && r.0 == m[name := o]
    ensures r.1.AlreadyExists? ==> name in m
    ensures r.0 == m || (name !in m && r.0 == m[name := o])
  {
    if fault.Lost? then (m, CreateFailed)
    else if name in m then (m, if fault.NoFault? then AlreadyExists else CreateFailed)
    else (m[name := o], if fault.NoFault? then Created else CreateFailed)
  }

  /** The effect of an accepted delete request. */
  function Gone<S, T>(m: Objects<S, T>, name: Name, now: int): Objects<S, T> {
    if name !in m then m
    else if m[name].meta.finalizers == [] then m - {name}
    else if m[name].meta.deleted.Some? then m
    else m[name := m[name].(meta := m[name].meta.(deleted := Some(now)))]
  }

  /** Client.Delete. */
  function Delete<S, T>(m: Objects<S, T>, name: Name, now: int, fault: Fault): (r: (Objects<S, T>, DeleteResult))
    ensures r.1.Deleted? || r.1.NotFound? ==> r.0 == Gone(m, name, now)
    ensures r.0 == m || r.0 == Gone(m, name, now)
  {
    if fault.Lost? then (m, DeleteFailed)
    else if fault.Applied? then (Gone(m, name, now), DeleteFailed)
    else if name !in m then (m, NotFound)
    else (Gone(m, name, now), Deleted)
  }
}
