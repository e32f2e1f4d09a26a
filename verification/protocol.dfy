/**
 * The WebSocket side shared by both web applications: a socket is an opaque
 * id, a JSON message sent to a socket is a `Message` value, and every send is
 * an `Envelope` appended to an outbox. The bookkeeping of the two connection
 * managers' `disconnect` (drop a socket from the connection list and from
 * every profile's socket set) is defined here once.
 */
module Protocol {
  import opened Wrappers
  import Text

  type SocketId = int

  /** The `status` of a `connection_status` message. */
  datatype ConnStatus = Connecting | Connected | Disconnected {
    function Value(): string {
      match this
      case Connecting => "connecting"
      case Connected => "connected"
      case Disconnected => "disconnected"
    }
  }

  /** The messages the servers send, by their `type` key. */
  datatype Message =
    | ConnectionStatus(profile: string, status: ConnStatus, note: Option<string>)
    | CommandOutput(profile: string, output: string, isError: bool)
    | CommandComplete(profile: string, success: bool, duration: real)
    | CommandError(profile: string, error: string)
    | ErrorNotice(message: string)

  /** One message sent to one socket. */
  datatype Envelope = Envelope(to: SocketId, msg: Message)

  /** Python's `list.remove(x)` guarded by `x in list`: drops the first occurrence, if any. */
  function RemoveFirstValue(s: seq<SocketId>, x: SocketId): (r: seq<SocketId>)
    ensures x !in s ==> r == s
    ensures x in s ==> |r| == |s| - 1
    ensures multiset(r) == multiset(s) - multiset{x}
  {
    if s == [] then []
    else
      assert s == [s[0]] + s[1..];
      if s[0] == x then s[1..]
      else [s[0]] + RemoveFirstValue(s[1..], x)
  }

  /** `remove` drops exactly the first occurrence, at `i`, and keeps the order of everything else. */
  lemma {:induction false} RemoveFirstValueAt(s: seq<SocketId>, x: SocketId, i: nat)
    requires i < |s| && s[i] == x && x !in s[..i]
    ensures RemoveFirstValue(s, x) == s[..i] + s[i + 1..]
  {
    if i == 0 {
      assert s[..0] + s[1..] == s[1..];
    } else {
      assert s[..i] == [s[0]] + s[1..][..i - 1];
      RemoveFirstValueAt(s[1..], x, i - 1);
      DeleteAfterHead(s, i - 1);
    }
  }

  /** Deleting index `j` of the tail, then putting the head back, deletes index `j + 1`. */
  lemma DeleteAfterHead<T>(s: seq<T>, j: nat)
    requires j + 1 < |s|
    ensures [s[0]] + (s[1..][..j] + s[1..][j + 1..]) == s[..j + 1] + s[j + 2..]
  {
    assert s[..j + 1] == [s[0]] + s[1..][..j];
    assert s[j + 2..] == s[1..][j + 1..];
    Text.ConcatAssoc([s[0]], s[1..][..j], s[1..][j + 1..]);
  }

  /** Removing the one occurrence of a socket leaves no trace of it. */
  lemma RemoveOnlyOccurrence(s: seq<SocketId>, x: SocketId)
    requires multiset(s)[x] <= 1
    ensures x !in RemoveFirstValue(s, x)
  {
    var r := RemoveFirstValue(s, x);
    assert multiset(r)[x] == 0;
  }

  /** Every profile's socket set without the given socket. */
  function Dropped(m: map<string, set<SocketId>>, ws: SocketId): (r: map<string, set<SocketId>>)
    ensures r.Keys == m.Keys
    ensures forall p :: p in r ==> ws !in r[p]
    ensures forall p, s :: p in r && s != ws ==> (s in r[p] <==> s in m[p])
  {
    map p | p in m :: m[p] - {ws}
  }

  /** The loop of `disconnect` over the values of `profile_connections`. */
  method DropSocket(m: map<string, set<SocketId>>, ws: SocketId) returns (r: map<string, set<SocketId>>)
    ensures r == Dropped(m, ws)
  {
    r := m;
    var todo := m.Keys;
    while todo != {}
      invariant todo <= m.Keys && r.Keys == m.Keys
      invariant forall p :: p in todo ==> r[p] == m[p]
      invariant forall p :: p in m && p !in todo ==> r[p] == m[p] - {ws}
      decreases todo
    {
      var p :| p in todo;
      if ws in r[p] {
        r := r[p := r[p] - {ws}];
      }
      todo := todo - {p};
    }
  }

  /** The same message addressed to each socket, in list order. */
  function Addressed(targets: seq<SocketId>, msg: Message): (r: seq<Envelope>)
    ensures |r| == |targets|
    ensures forall i :: 0 <= i < |r| ==> r[i] == Envelope(targets[i], msg)
  {
    seq(|targets|, i requires 0 <= i < |targets| => Envelope(targets[i], msg))
  }
}
