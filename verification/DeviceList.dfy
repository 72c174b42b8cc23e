/** The list of devices that the timer walks: attach_event of src/timer.c and the part of main
    in src/os.c that builds the list. */
module DeviceList {

  // struct timer_id_container_t; its flags and locks are the Device of module Barrier.
  class Container {
    var next: Container?

    constructor ()
      ensures next == null
    {
      next := null;
    }
  }

  ghost predicate Chain(head: Container?, nodes: seq<Container>)
    reads nodes
    decreases |nodes|
  {
    if nodes == [] then head == null
    else head == nodes[0] && nodes[0] !in nodes[1..] && Chain(nodes[0].next, nodes[1..])
  }

  /** The static variables of src/timer.c. `nodes` is the list, from its head. */
  class Timer {
    var devList: Container?
    var started: bool
    ghost var nodes: seq<Container>

    ghost predicate Valid()
      reads this, nodes
    {
      Chain(devList, nodes)
    }

    constructor ()
      ensures Valid() && nodes == [] && !started
    {
      devList, started, nodes := null, false, [];
    }

    /** attach_event: a new device at the head of the list, or none once the timer runs. */
    method AttachEvent() returns (id: Container?)
      requires Valid()
      modifies this`devList, this`nodes
      ensures Valid()
      ensures started ==> id == null && nodes == old(nodes) && devList == old(devList)
      ensures !started ==> id != null && fresh(id) && nodes == [id] + old(nodes)
    {
      if started {
        return null;
      }
      var container := new Container();
      if devList == null {
        devList := container;
        devList.next := null;
      } else {
        container.next := devList;
        devList := container;
      }
      nodes := [container] + nodes;
      assert nodes[1..] == old(nodes);
      id := container;
    }

    method StartTimer()
      modifies this`started
      ensures started
    {
      started := true;
    }
  }

  /** main attaches the CPUs by number and then the loader. So the timer visits the loader first
      and CPU `i` at position num_cpus - i: the order in which modules Barrier and Simulator
      number the devices. */
  method AttachAll(timer: Timer, numCpus: nat) returns (cpus: array<Container?>, ld: Container?)
    requires timer.Valid() && timer.nodes == [] && !timer.started
    modifies timer
    ensures timer.Valid() && timer.started && |timer.nodes| == numCpus + 1
    ensures fresh(cpus) && cpus.Length == numCpus
    ensures ld == timer.nodes[0]
    ensures forall i :: 0 <= i < numCpus ==> cpus[i] == timer.nodes[numCpus - i]
    ensures forall i, j :: 0 <= i < j <= numCpus ==> timer.nodes[i] != timer.nodes[j]
  {
    cpus := new Container?[numCpus];
    var i := 0;
    while i < numCpus
      invariant 0 <= i <= numCpus && timer.Valid() && !timer.started
      invariant |timer.nodes| == i
      invariant forall j :: 0 <= j < i ==> cpus[j] == timer.nodes[i - 1 - j]
    {
      cpus[i] := timer.AttachEvent();
      i := i + 1;
    }
    ld := timer.AttachEvent();
    ChainIsDistinct(timer.devList, timer.nodes);
    timer.StartTimer();
  }

  lemma {:induction false} ChainIsDistinct(head: Container?, nodes: seq<Container>)
    requires Chain(head, nodes)
    ensures forall i, j :: 0 <= i < j < |nodes| ==> nodes[i] != nodes[j]
    decreases |nodes|
  {
    if nodes == [] {
    } else {
      ChainIsDistinct(nodes[0].next, nodes[1..]);
      forall i, j | 0 <= i < j < |nodes| ensures nodes[i] != nodes[j] {
        assert nodes[j] == nodes[1..][j - 1];
        if i > 0 { assert nodes[i] == nodes[1..][i - 1]; }
      }
    }
  }
}
