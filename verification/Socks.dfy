/** The SOCKS5 messages a client sends first (sections 3 to 5 of RFC 1928), and the socket they come from. */
module Socks {
  import opened Words

  datatype Target = Ipv4(octets: seq<byte>) | Domain(name: seq<byte>) | Ipv6(octets: seq<byte>)

  datatype Request = Request(target: Target, port: u16)

  // ----- the messages, as they are written

  predicate WellFormed(target: Target) {
    match target
    case Ipv4(octets) => |octets| == 4
    case Domain(name) => |name| < 256
    case Ipv6(octets) => |octets| == 16
  }

  function Greeting(methods: seq<byte>): seq<byte>
    requires |methods| < 256
  {
    [5, |methods|] + methods
  }

  function TargetBytes(target: Target): seq<byte>
    requires WellFormed(target)
  {
    match target
    case Ipv4(octets) => [1] + octets
    case Domain(name) => [3, |name|] + name
    case Ipv6(octets) => [4] + octets
  }

  function RequestBytes(reserved: byte, r: Request): seq<byte>
    requires WellFormed(r.target)
  {
    [5, 1, reserved] + TargetBytes(r.target) + Be16(r.port)
  }

  // ----- the messages, as they are read

  /** Number of bytes of the greeting at the front of `s`. */
  function ReadGreeting(s: seq<byte>): Option<nat> {
    if |s| < 2 || s[0] != 5 || |s| < 2 + s[1] as int then None else Some(2 + s[1] as int)
  }

  function ReadTarget(s: seq<byte>, utf8: seq<byte> -> bool): Option<Target> {
    if |s| < 1 then None
    else if s[0] == 1 then (if |s| < 5 then None else Some(Ipv4(s[1..5])))
    else if s[0] == 3 then
      if |s| < 2 || |s| < 2 + s[1] as int || !utf8(s[2..2 + s[1] as int]) then None
      else Some(Domain(s[2..2 + s[1] as int]))
    else if s[0] == 4 then (if |s| < 17 then None else Some(Ipv6(s[1..17])))
    else None
  }

  /** The request at the front of `s`. */
  function ReadRequest(s: seq<byte>, utf8: seq<byte> -> bool): (r: Option<Request>)
    ensures r.Some? ==> WellFormed(r.value.target)
  {
    if |s| < 4 || s[0] != 5 || s[1] != 1 then None
    else
      match ReadTarget(s[3..], utf8)
      case None => None
      case Some(target) =>
        var n := 3 + |TargetBytes(target)|;
        if |s| < n + 2 then None else Some(Request(target, FromBe16(s[n..n + 2])))
  }

  /** A greeting is read exactly off the byte strings that start with one, and covers just that one. */
  lemma GreetingReadExactly(s: seq<byte>, n: nat)
    ensures ReadGreeting(s) == Some(n)
       <==> exists methods: seq<byte> :: |methods| < 256 && Greeting(methods) <= s && n == |Greeting(methods)|
  {
    if ReadGreeting(s) == Some(n) {
      assert Greeting(s[2..n]) == s[..n];
    }
    forall methods: seq<byte> | |methods| < 256 && Greeting(methods) <= s
      ensures ReadGreeting(s) == Some(|Greeting(methods)|)
    {
      assert s[0] == Greeting(methods)[0] && s[1] == Greeting(methods)[1];
    }
  }

  lemma TargetReadExactly(s: seq<byte>, target: Target, utf8: seq<byte> -> bool)
    requires WellFormed(target)
    ensures ReadTarget(s, utf8) == Some(target)
       <==> TargetBytes(target) <= s && (target.Domain? ==> utf8(target.name))
  {
    if TargetBytes(target) <= s {
      assert s[..|TargetBytes(target)|] == TargetBytes(target);
      assert s[0] == TargetBytes(target)[0];
      match target
      case Ipv4(octets) => assert s[1..5] == octets;
      case Domain(name) => assert s[1] == |name| && s[2..2 + |name|] == name;
      case Ipv6(octets) => assert s[1..17] == octets;
    }
    if ReadTarget(s, utf8) == Some(target) {
      assert s[..|TargetBytes(target)|] == TargetBytes(target);
    }
  }

  /** A request is read exactly off the byte strings that start with its encoding, whatever the
      reserved byte is; in particular encodings cannot be confused, and nothing after the two bytes
      of the port belongs to it. */
  lemma RequestReadExactly(s: seq<byte>, r: Request, utf8: seq<byte> -> bool)
    requires WellFormed(r.target) && |s| >= 3
    ensures ReadRequest(s, utf8) == Some(r)
       <==> RequestBytes(s[2], r) <= s && (r.target.Domain? ==> utf8(r.target.name))
  {
    var body, n := TargetBytes(r.target), 3 + |TargetBytes(r.target)|;
    TargetReadExactly(s[3..], r.target, utf8);
    var port := if |s| >= n + 2 then s[n..n + 2] else [0, 0];
    Be16Bijective(r.port, port);
    ThreePartsExactly(s, [5, 1, s[2]], body, Be16(r.port));
    assert [5, 1, s[2]] <= s <==> s[0] == 5 && s[1] == 1;
  }

  /** Two parts stand at the front exactly when each stands in its place. */
  lemma TwoPartsExactly(s: seq<byte>, a: seq<byte>, b: seq<byte>)
    ensures a + b <= s <==> a <= s && |s| >= |a| + |b| && s[|a|..|a| + |b|] == b
  {
    var m := |a| + |b|;
    if |s| >= m {
      assert s[..m] == s[..|a|] + s[|a|..m];
      if a + b <= s {
        assert s[..m] == a + b;
        assert (a + b)[|a|..m] == b && s[..m][|a|..m] == s[|a|..m];
      }
    }
  }

  lemma ThreePartsExactly(s: seq<byte>, a: seq<byte>, b: seq<byte>, c: seq<byte>)
    ensures a + b + c <= s
       <==> |s| >= |a| + |b| + |c| && a <= s && b <= s[|a|..] && s[|a| + |b|..|a| + |b| + |c|] == c
  {
    TwoPartsExactly(s, a + b, c);
    TwoPartsExactly(s, a, b);
    if |s| >= |a| + |b| {
      assert s[|a|..][..|b|] == s[|a|..|a| + |b|];
    }
  }

  lemma RequestInSteps(s: seq<byte>, utf8: seq<byte> -> bool, rest: Option<Target>, n: nat)
    requires rest == if |s| < 4 then None else ReadTarget(s[3..], utf8)
    requires rest.Some? ==> WellFormed(rest.value) && n == 3 + |TargetBytes(rest.value)|
    ensures ReadRequest(s, utf8)
         == if rest == None || s[0] != 5 || s[1] != 1 || |s| < n + 2 then None
            else Some(Request(rest.value, FromBe16(s[n..n + 2])))
    ensures rest.Some? ==> forall r: Request :: r.target == rest.value ==> |RequestBytes(0, r)| == n + 2
  {
  }

  // ----- the socket

  lemma SliceOfSuffix(input: seq<byte>, from: nat, i: nat, j: nat)
    requires from + i <= from + j <= |input|
    ensures input[from..][i..j] == input[from + i..from + j]
    ensures input[from..][i..] == input[from + i..]
  {
  }

  /** The first `room` bytes of what is written. */
  function Fit(data: seq<byte>, room: nat): seq<byte> {
    if |data| <= room then data else data[..room]
  }

  class Socket {
    const input: seq<byte>     // everything that can ever be read from the client
    const room: nat            // how many bytes can be written before writing fails
    var at: nat                // how much of the input has been read
    var output: seq<byte>      // everything written to the client

    constructor (input: seq<byte>, room: nat)
      ensures this.input == input && this.room == room && at == 0 && output == []
      ensures Valid()
    {
      this.input, this.room := input, room;
      at, output := 0, [];
    }

    ghost predicate Valid()
      reads this
    {
      at <= |input| && |output| <= room
    }

    method ReadExact(n: nat) returns (data: Option<seq<byte>>)
      requires Valid()
      modifies this`at
      ensures Valid() && at >= old(at)
      ensures if old(at) + n <= |input| then data == Some(input[old(at)..at]) && at == old(at) + n
              else data == None
    {
      if |input| - at < n {
        at := |input|;
        return None;
      }
      data := Some(input[at..at + n]);
      at := at + n;
    }

    /** Some bytes, up to `max`; none exactly when no more can be read, at the end or after an error. */
    method Read(max: nat) returns (data: seq<byte>)
      requires Valid() && max > 0
      modifies this`at
      ensures Valid() && at >= old(at) && |data| <= max
      ensures data == input[old(at)..at]
      ensures data == [] <==> old(at) == |input|
    {
      var n: int := *;
      if n <= 0 || n > max || n > |input| - at {
        n := if at == |input| then 0 else 1;
      }
      data := input[at..at + n];
      at := at + n;
    }

    /** Writes all of `data`, or fails after as much of it as can be written. */
    method WriteAll(data: seq<byte>) returns (ok: bool)
      requires Valid()
      modifies this`output
      ensures Valid()
      ensures output == Fit(old(output) + data, room)
      ensures ok <==> |old(output)| + |data| <= room
    {
      var n := room - |output|;
      if n < |data| {
        output := output + data[..n];
        return false;
      }
      output := output + data;
      ok := true;
    }

    /** One write: some of the bytes; none exactly when no more can be written. */
    method WriteSome(data: seq<byte>) returns (n: nat)
      requires Valid() && data != []
      modifies this`output
      ensures Valid() && n <= |data| && output == old(output) + data[..n]
      ensures n == 0 <==> |old(output)| == room
    {
      var some: int := *;
      if some <= 0 || some > |data| || some > room - |output| {
        some := if |output| == room then 0 else 1;
      }
      n := some;
      output := output + data[..n];
    }

    /** The greeting and its answer: accepted exactly if a greeting can be read and the answer written. */
    method Handshake() returns (ok: bool)
      requires Valid()
      modifies this
      ensures Valid()
      ensures ok <==> ReadGreeting(input[old(at)..]).Some? && |old(output)| + 2 <= room
      ensures ok ==> ReadGreeting(input[old(at)..]) == Some(at - old(at))
      ensures output == if ReadGreeting(input[old(at)..]).Some? then Fit(old(output) + [5, 0], room) else old(output)
    {
      var header := ReadExact(2);
      if header == None || header.value[0] != 5 {
        return false;
      }
      var methods := ReadExact(header.value[1]);
      if methods == None {
        return false;
      }
      ok := WriteAll([5, 0]);
    }

    /** The address, after its type byte `kind` was read. */
    method ReceiveTarget(kind: byte, utf8: seq<byte> -> bool) returns (target: Option<Target>)
      requires Valid() && 0 < at && input[at - 1] == kind
      modifies this`at
      ensures Valid()
      ensures target == ReadTarget(input[old(at) - 1..], utf8)
      ensures target.Some? ==> at == old(at) - 1 + |TargetBytes(target.value)|
    {
      ghost var from := at - 1;
      ghost var s := input[from..];
      if kind == 1 {
        var ip := ReadExact(4);
        if ip == None {
          return None;
        }
        SliceOfSuffix(input, from, 1, 5);
        return Some(Ipv4(ip.value));
      } else if kind == 3 {
        var len := ReadExact(1);
        if len == None {
          return None;
        }
        SliceOfSuffix(input, from, 1, 2);
        assert s[1] == s[1..2][0];
        var domain := ReadExact(len.value[0]);
        if domain == None {
          return None;
        }
        SliceOfSuffix(input, from, 2, 2 + len.value[0] as int);
        return if utf8(domain.value) then Some(Domain(domain.value)) else None;
      } else if kind == 4 {
        var ip := ReadExact(16);
        if ip == None {
          return None;
        }
        SliceOfSuffix(input, from, 1, 17);
        return Some(Ipv6(ip.value));
      } else {
        return None;
      }
    }

    method ReceiveRequest(utf8: seq<byte> -> bool) returns (r: Option<Request>)
      requires Valid()
      modifies this`at
      ensures Valid()
      ensures r == ReadRequest(input[old(at)..], utf8)
      ensures r.Some? ==> at == old(at) + |RequestBytes(0, r.value)|
    {
      ghost var from := at;
      ghost var s := input[from..];
      ghost var rest := if |s| < 4 then None else ReadTarget(s[3..], utf8);
      ghost var n := if rest == None then 0 else 3 + |TargetBytes(rest.value)|;
      RequestInSteps(s, utf8, rest, n);
      var header := ReadExact(4);
      if header == None {
        return None;
      }
      SliceOfSuffix(input, from, 0, 4);
      SliceOfSuffix(input, from, 3, 4);
      if header.value[0] != 5 || header.value[1] != 1 {
        return None;
      }
      var target := ReceiveTarget(header.value[3], utf8);
      assert target == rest;
      if target == None {
        return None;
      }
      var port := ReadExact(2);
      if port == None {
        return None;
      }
      SliceOfSuffix(input, from, n, n + 2);
      r := Some(Request(target.value, FromBe16(port.value)));
    }
  }
}
