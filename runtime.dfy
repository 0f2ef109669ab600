/** The side of the world the pipeline's code acts on: the Redis store, the
    underlying unit of work (whose outcome on each call is given by an
    oracle), and the sleeps taken, in milliseconds. */
module Runtime {
  import opened Wrappers
  import opened Redis

  /** How one call of the underlying work ends: it returns, or it raises with
      this message. */
  datatype Outcome = Done | Raised(message: string)

  /** A snapshot of the world: the store, how many times the work has been
      called so far, and every sleep taken so far. */
  datatype World = World(store: Store, calls: nat, sleeps: seq<nat>) {
    function Sleep(ms: nat): World {
      this.(sleeps := sleeps + [ms])
    }

    /** One call of the work; its outcome is the oracle's answer for this
        call's number. */
    function Call(work: nat -> Outcome): (World, Outcome) {
      (this.(calls := calls + 1), work(calls))
    }

    function WithStore(s: Store): World {
      this.(store := s)
    }
  }

  /** The running process: a Redis connection, the work it runs and the
      clock it sleeps on. */
  class Host {
    var store: Store
    var calls: nat
    var sleeps: seq<nat>
    const work: nat -> Outcome

    constructor (s: Store, work: nat -> Outcome)
      ensures store == s && calls == 0 && sleeps == [] && this.work == work
    {
      store := s;
      calls := 0;
      sleeps := [];
      this.work := work;
    }

    function State(): World
      reads this
    {
      World(store, calls, sleeps)
    }

    /** time.sleep */
    method Sleep(ms: nat)
      modifies this
      ensures State() == old(State()).Sleep(ms)
    {
      sleeps := sleeps + [ms];
    }

    /** One call of the underlying work. */
    method Call() returns (o: Outcome)
      modifies this
      ensures (State(), o) == old(State()).Call(work)
    {
      o := work(calls);
      calls := calls + 1;
    }

    method Xadd(key: string, f: Fields) returns (r: Result<nat>)
      modifies this
      ensures State() == old(State()).WithStore(old(store).Add(key, f).0)
      ensures r == old(store).Add(key, f).1
    {
      var (s, res) := store.Add(key, f);
      store, r := s, res;
    }

    method XgroupCreate(key: string, g: string) returns (r: Result<()>)
      modifies this
      ensures State() == old(State()).WithStore(old(store).CreateGroup(key, g).0)
      ensures r == old(store).CreateGroup(key, g).1
    {
      var (s, res) := store.CreateGroup(key, g);
      store, r := s, res;
    }

    method Xreadgroup(key: string, g: string, consumer: string, count: nat) returns (r: Result<seq<Message>>)
      modifies this
      ensures State() == old(State()).WithStore(old(store).ReadGroup(key, g, consumer, count).0)
      ensures r == old(store).ReadGroup(key, g, consumer, count).1
    {
      var (s, res) := store.ReadGroup(key, g, consumer, count);
      store, r := s, res;
    }

    method Xack(key: string, g: string, id: nat) returns (r: Result<nat>)
      modifies this
      ensures State() == old(State()).WithStore(old(store).Ack(key, g, id).0)
      ensures r == old(store).Ack(key, g, id).1
    {
      var (s, res) := store.Ack(key, g, id);
      store, r := s, res;
    }

    method Xclaim(key: string, g: string, consumer: string, minIdle: nat, id: nat) returns (r: Result<bool>)
      modifies this
      ensures State() == old(State()).WithStore(old(store).Claim(key, g, consumer, minIdle, id).0)
      ensures r == old(store).Claim(key, g, consumer, minIdle, id).1
    {
      var (s, res) := store.Claim(key, g, consumer, minIdle, id);
      store, r := s, res;
    }

    method Delete(key: string) returns (r: Result<nat>)
      modifies this
      ensures State() == old(State()).WithStore(old(store).Delete(key).0)
      ensures r == old(store).Delete(key).1
    {
      var (s, res) := store.Delete(key);
      store, r := s, res;
    }
  }
}
