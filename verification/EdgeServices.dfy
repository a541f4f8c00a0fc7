/** The list of services an edge server runs (edge_services.py). */
module EdgeServices {
  import opened Basics
  import opened Handlers

  datatype Key = Key(user: string, name: string)

  datatype Entry = Entry(key: Key, svc: Service)

  /** The services listed for one key, in list order. */
  function Listed(l: seq<Entry>, k: Key): seq<Service> {
    if l == [] then []
    else (if l[0].key == k then [l[0].svc] else []) + Listed(l[1..], k)
  }

  lemma {:induction false} ListedConcat(a: seq<Entry>, b: seq<Entry>, k: Key)
    ensures Listed(a + b, k) == Listed(a, k) + Listed(b, k)
  {
    if a == [] {
      assert a + b == b;
    } else {
      assert (a + b)[1..] == a[1..] + b;
      ListedConcat(a[1..], b, k);
    }
  }

  lemma {:induction false} ListedNone(l: seq<Entry>, k: Key)
    ensures Listed(l, k) == [] <==> forall e | e in l :: e.key != k
  {
    if l == [] {
    } else {
      ListedNone(l[1..], k);
      assert l == [l[0]] + l[1..];
    }
  }

  /** Cutting the first entry of a key out of the list drops the first service
    * listed for that key and nothing of any other key. */
  lemma CutFirst(l: seq<Entry>, i: nat, k: Key)
    requires i < |l| && forall j | 0 <= j < i :: l[j].key != l[i].key
    ensures l[i].key == k ==> Listed(l, k) == [l[i].svc] + Listed(l[..i] + l[i + 1..], k)
    ensures l[i].key != k ==> Listed(l, k) == Listed(l[..i] + l[i + 1..], k)
  {
    var a, x, b := l[..i], [l[i]], l[i + 1..];
    assert l == a + (x + b);
    ListedConcat(a, x + b, k);
    ListedConcat(x, b, k);
    ListedConcat(a, b, k);
    ListedOne(l[i], k);
    if l[i].key == k {
      ListedNone(a, k);
    }
  }

  lemma ListedOne(e: Entry, k: Key)
    ensures Listed([e], k) == if e.key == k then [e.svc] else []
  {
    assert [e][1..] == [];
  }

  class Registry {
    var services: seq<Entry>
    var users: seq<string>

    constructor ()
      ensures services == [] && users == []
    {
      services, users := [], [];
    }

    method AddService(k: Key, svc: Service)
      modifies this
      ensures services == old(services) + [Entry(k, svc)]
      ensures forall u :: u in users <==> u in old(users) || u == k.user
    {
      services := services + [Entry(k, svc)];
      if k.user !in users {
        users := users + [k.user];
      }
    }

    method FindIndexService(k: Key) returns (i: Option<nat>)
      ensures i.None? <==> Listed(services, k) == []
      ensures i.Some? ==> i.value < |services| && services[i.value].key == k
      ensures i.Some? ==> forall j | 0 <= j < i.value :: services[j].key != k
    {
      var n := 0;
      while n < |services|
        invariant n <= |services| && forall j | 0 <= j < n :: services[j].key != k
      {
        if services[n].key == k {
          ListedNone(services, k);
          return Some(n);
        }
        n := n + 1;
      }
      ListedNone(services, k);
      i := None;
    }

    method GetService(k: Key) returns (svc: Option<Service>)
      ensures svc == if Listed(services, k) == [] then None else Some(Listed(services, k)[0])
    {
      var i := FindIndexService(k);
      if i.None? {
        return None;
      }
      CutFirst(services, i.value, k);
      svc := Some(services[i.value].svc);
    }

    /** Removes the oldest entry of the key, if there is one. */
    method RemoveService(k: Key)
      modifies this`services
      ensures forall o :: Listed(services, o) ==
                if o == k && Listed(old(services), k) != [] then Listed(old(services), k)[1..]
                else Listed(old(services), o)
    {
      var i := FindIndexService(k);
      if i.Some? {
        forall o {
          CutFirst(services, i.value, o);
        }
        services := services[..i.value] + services[i.value + 1..];
      }
    }
  }
}
