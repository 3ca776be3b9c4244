/** TcpServer's own objects: the registry, the id counter and the pool, changed in place. */
module TcpServers {
  import opened ConnectionNames
  import opened ThreadPool
  import opened Connection
  import opened Polling
  import opened ServerLifecycle

  class TcpServer {
    const name: string
    const listen: Endpoint
    const pool: EventLoopThreadPool<nat>    // loops by number, the base loop being 0
    var nextConnId: nat
    var connections: map<string, nat>
    var conns: seq<Record>                  // the connection objects, by creation
    var queues: seq<seq<Job>>               // pendingFunctors_ of each loop
    ghost var active: seq<seq<nat>>         // activeChannels_ of each loop, from the one being handled
    ghost var rounds: seq<Round>            // where each loop stands, with the functors its batch holds
    ghost var testing: map<nat, nat>        // threads inside send or shutdown of a connection

    ghost predicate Valid()
      reads this, pool
    {
      && pool.Valid() && pool.baseLoop == 0
      && (forall i :: 0 <= i < |pool.loops| ==> pool.loops[i] == i + 1)
      && LoopsExist(View())
    }

    ghost function View(): Server
      reads this, pool
    { Server(name, listen, |pool.loops|, pool.next, nextConnId, connections, conns, queues, active, rounds, testing) }

    constructor (name: string, listen: Endpoint, pool: EventLoopThreadPool<nat>)
      requires pool.Valid() && pool.baseLoop == 0 && pool.next == 0
      requires forall i :: 0 <= i < |pool.loops| ==> pool.loops[i] == i + 1
      ensures Valid() && View() == NewServer(name, listen, |pool.loops|)
    {
      this.name, this.listen, this.pool := name, listen, pool;
      nextConnId, connections, conns := 1, map[], [];
      queues := seq(|pool.loops| + 1, i => []);
      active, testing := seq(|pool.loops| + 1, i => []), map[];
      rounds := seq(|pool.loops| + 1, i => AtPoll);
    }

    method QueueInLoop(loop: nat, job: Job)
      requires Valid() && loop < |queues|
      modifies this`queues
      ensures Valid() && View() == Push(old(View()), loop, job)
    { queues := queues[loop := queues[loop] + [job]]; }

    /** The connection's own part of a step, on whichever loop it happens. */
    method Become(c: nat, state: State, index: Index, phase: Phase)
      requires Valid() && c < |conns|
      modifies this`conns
      ensures Valid() && View() == Mark(old(View()), c, state, index, phase)
    { conns := conns[c := conns[c].(state := state, index := index, phase := phase)]; }

    /** The caller, Acceptor::handleRead, is on the base loop; the id must still be an int. */
    method NewConnection(sockfd: nat)
      requires Valid() && nextConnId < INT_MAX
      modifies this`nextConnId, this`connections, this`conns, this`queues, pool`next, pool`choices
      ensures Valid() && View() == ServerLifecycle.NewConnection(old(View()), sockfd)
    {
      ghost var s := View();
      var ioLoop := pool.GetNextLoop();
      var connName := ConnName(name, listen, nextConnId);
      nextConnId := nextConnId + 1;
      var conn := |conns|;
      conns := conns + [Record(ioLoop, connName, sockfd, Connecting, New, Establishing)];
      connections := connections[connName := conn];
      assert View() == Register(s, sockfd);
      if ioLoop == 0 {
        Become(conn, Connected, Added, Live);
      } else {
        QueueInLoop(ioLoop, EstablishJob(conn));
      }
    }

    /** handleClose of a connection, up to the close callback, and then that callback. */
    method CloseConnection(c: nat)
      requires Valid() && c < |conns|
      modifies this`connections, this`conns, this`queues
      ensures Valid() && View() == ServerLifecycle.CloseConnection(old(View()), c)
    {
      Become(c, Disconnected, Deleted, Removing);
      RemoveConnection(c, conns[c].loop);
    }

    /** runInLoop on the base loop: at once when the caller's loop is the base loop. */
    method RemoveConnection(c: nat, callerLoop: nat)
      requires Valid() && c < |conns|
      modifies this`connections, this`conns, this`queues
      ensures Valid()
      ensures View() == if callerLoop == 0 then ServerLifecycle.RemoveConnectionInLoop(old(View()), c)
                        else Push(old(View()), 0, RemoveJob(c))
    {
      if callerLoop == 0 {
        RemoveConnectionInLoop(c);
      } else {
        QueueInLoop(0, RemoveJob(c));
      }
    }

    method RemoveConnectionInLoop(c: nat)
      requires Valid() && c < |conns|
      modifies this`connections, this`conns, this`queues
      ensures Valid() && View() == ServerLifecycle.RemoveConnectionInLoop(old(View()), c)
    {
      connections := connections - {conns[c].name};
      Become(c, conns[c].state, conns[c].index, Destroying);
      QueueInLoop(conns[c].loop, DestroyJob(c));
    }

    /** A loop takes the functor at the front of its batch. */
    method RunFront(loop: nat)
      requires Valid() && Enabled(View(), RunJob(loop))
      modifies this`connections, this`conns, this`queues, this`rounds
      ensures Valid() && View() == Step(old(View()), RunJob(loop))
    {
      var job := queues[loop][0];
      queues := queues[loop := queues[loop][1..]];
      rounds := rounds[loop := Batch(rounds[loop].left - 1, rounds[loop].held + [job])];
      match job
      case EstablishJob(c) => Become(c, Connected, Added, Live);
      case RemoveJob(c) => RemoveConnectionInLoop(c);
      case DestroyJob(c) => Become(c, Disconnected, New, Destroyed);
      case CallbackJob(_) =>                  // user code
      case RawJob(_, _) =>                    // TcpConnection.dfy's business
    }
  }
}
