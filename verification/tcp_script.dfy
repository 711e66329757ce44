/** The script both ends of a stream run: who sends which bytes, in which order. */
module TcpScript {
  import opened Words

  datatype Peer = Client | Server

  function Other(p: Peer): Peer {
    if p == Client then Server else Client
  }

  datatype Action = Action(peer: Peer, beg: u32, len: u32)

  datatype Script = Script(actions: seq<Action>, clientContent: seq<byte>, serverContent: seq<byte>) {

    function Content(p: Peer): seq<byte> {
      if p == Client then clientContent else serverContent
    }

    /** The array read of actions[i]. Past the end of the array the result is arbitrary; CurActionInScript in
        TcpTheorems shows that no run gets there. */
    function ActionAt(i: nat): Action {
      if i < |actions| then actions[i] else Action(Client, 0, 0)
    }

    /** The memory read of content[beg .. beg + len). Past the end the bytes are arbitrary. */
    function Bytes(p: Peer, beg: nat, len: nat): (r: seq<byte>)
      ensures |r| == len
      ensures beg + len <= |Content(p)| ==> r == Content(p)[beg..beg + len]
    {
      seq(len, j requires 0 <= j < len => if beg + j < |Content(p)| then Content(p)[beg + j] else 0)
    }

    /** How many bytes peer p sends in the first i actions. */
    function Offset(p: Peer, i: nat): nat
      requires i <= |actions|
    {
      if i == 0 then 0 else Offset(p, i - 1) + (if actions[i - 1].peer == p then actions[i - 1].len else 0)
    }

    /** The index of the closing action. */
    function Last(): int {
      |actions| - 1
    }

    /** How many bytes peer p sends in the whole script. */
    function Total(p: Peer): nat {
      Offset(p, |actions|)
    }

    /** Everything peer p says in the script. */
    function Scripted(p: Peer): seq<byte>
      requires Valid()
    {
      TotalInContent(p);
      Content(p)[..Total(p)]
    }

    /** Action i is not empty and starts where its peer's earlier actions stop. */
    ghost predicate Contiguous(i: nat)
      requires i < |actions|
    {
      && actions[i].len > 0
      && actions[i].beg == Offset(actions[i].peer, i)
      && actions[i].beg + actions[i].len <= |Content(actions[i].peer)|
    }

    /** What the loader provides: exactly the last action is empty, and each peer's actions follow each other in its
        content. The total stays clear of the sequence number wrap. */
    ghost predicate Valid() {
      && |actions| >= 1
      && actions[Last()].len == 0
      && (forall i :: 0 <= i < Last() ==> Contiguous(i))
      && Total(Client) < WORD - 400_000
      && Total(Server) < WORD - 400_000
    }

    lemma {:induction false} OffsetMonotone(p: Peer, i: nat, j: nat)
      requires i <= j <= |actions|
      ensures Offset(p, i) <= Offset(p, j)
      decreases j
    {
      if i < j {
        OffsetMonotone(p, i, j - 1);
      }
    }

    lemma {:induction false} OffsetInContent(p: Peer, i: nat)
      requires i <= |actions|
      requires Valid()
      ensures Offset(p, i) <= |Content(p)|
    {
      if i > 0 {
        OffsetInContent(p, i - 1);
        assert i - 1 < Last() ==> Contiguous(i - 1);
      }
    }

    lemma TotalInContent(p: Peer)
      requires Valid()
      ensures Total(p) <= |Content(p)|
      ensures Total(p) == Offset(p, Last())
    {
      OffsetInContent(p, |actions|);
    }

    /** Action i moves its own peer by its positive length, and not the other one. */
    ghost predicate MovesItsPeer(i: nat)
      requires i < |actions|
    {
      var a := actions[i];
      && a.len > 0 && a.beg == Offset(a.peer, i) && Offset(a.peer, i + 1) == a.beg + a.len
      && Offset(Other(a.peer), i + 1) == Offset(Other(a.peer), i)
    }

    /** Every action before the closing one moves its own peer, and only it. */
    lemma {:induction false} ActionsMoveBytes(i: nat)
      requires Valid()
      requires i <= Last()
      ensures forall k :: 0 <= k < i ==> MovesItsPeer(k)
      ensures Offset(Client, i) + Offset(Server, i) >= i
    {
      if i > 0 {
        ActionsMoveBytes(i - 1);
        assert Contiguous(i - 1);
      }
    }
  }
}
