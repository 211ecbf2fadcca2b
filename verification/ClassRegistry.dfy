/** The server's store of objects, shared by all client threads. */
module ClassRegistries {
  import opened Wire
  import opened CustomClasses

  /** The registry as a value: the next handle and the object behind each handle. */
  datatype Registry = Registry(counter: nat, objs: map<int, Obj>)

  const EMPTY_REGISTRY := Registry(0, map[])

  ghost predicate WellFormed(r: Registry) {
    forall h :: h in r.objs <==> 0 <= h < r.counter
  }

  // `std::unordered_map::insert` keeps an entry that is already there.
  function Insert<T>(m: map<int, T>, h: int, x: T): map<int, T> {
    if h in m then m else m[h := x]
  }

  function WithNew(r: Registry, o: Obj): Registry {
    Registry(r.counter + 1, Insert(r.objs, r.counter, o))
  }

  class ClassRegistry {
    var handleCounter: nat
    var instances: map<int, CustomClass>

    // Handles are exactly 0..handleCounter-1, and no two of them share an object.
    ghost predicate Valid()
      reads this
    {
      && (forall h :: h in instances <==> 0 <= h < handleCounter)
      && (forall h, k :: h in instances && k in instances && h != k ==> instances[h] != instances[k])
    }

    ghost function View(): (r: Registry)
      requires Valid()
      reads this, instances.Values
      ensures WellFormed(r)
    {
      Registry(handleCounter, map h | h in instances :: instances[h].View())
    }

    constructor ()
      ensures Valid() && View() == EMPTY_REGISTRY && instances == map[]
    {
      handleCounter := 0;
      instances := map[];
    }

    /** Handles are fresh and bindings are permanent. */
    method Create(self: Address, args: CtorArgs) returns (handle: int32)
      requires Valid() && handleCounter < INT_MAX
      modifies this
      ensures Valid() && View() == WithNew(old(View()), Construct(self, args))
      ensures handle == old(handleCounter) && handle !in old(instances)
      ensures instances.Keys == old(instances).Keys + {handle} && fresh(instances[handle])
      ensures forall h :: h in old(instances) ==> instances[h] == old(instances[h])
      ensures fresh(instances.Values - old(instances.Values))
    {
      var instance := new CustomClass(self, args);
      handle := handleCounter;
      handleCounter := handleCounter + 1;
      instances := Insert(instances, handle, instance);
      assert forall h :: h in old(instances) ==> old(allocated(instances[h]));
    }

    method GetClassObjectByHandle(handle: int32) returns (instance: CustomClass?)
      requires Valid()
      ensures instance != null <==> handle in View().objs
      ensures instance != null ==> instance in instances.Values && instance.View() == View().objs[handle]
      ensures instance != null ==> handle in instances && instances[handle] == instance
    {
      if handle !in instances {
        return null;
      }
      return instances[handle];
    }

    // Changing the object behind one handle changes that entry of the registry and no other.
    twostate lemma OneObjectChanged(handle: int)
      requires old(Valid()) && unchanged(this)
      requires handle in instances
      requires forall h :: h in instances && h != handle ==> unchanged(instances[h])
      ensures Valid()
      ensures View() == old(View()).(objs := old(View()).objs[handle := instances[handle].View()])
    {
      var before := old(View());
      assert forall h :: h in instances && h != handle ==> View().objs[h] == before.objs[h];
      assert View().objs == before.objs[handle := instances[handle].View()];
    }
  }
}
