/** The ZooKeeper connection data that a ConfigMap carries. */
module Znodes {
  import opened Options
  import opened Texts

  const HOSTS_KEY := "ZOOKEEPER_HOSTS"
  const PORT_KEY := "ZOOKEEPER_PORT"
  const CHROOT_KEY := "ZOOKEEPER_CHROOT"
  const WHOLE_KEY := "zookeeper"

  lemma KeysAreDistinct()
    ensures HOSTS_KEY != PORT_KEY && HOSTS_KEY != CHROOT_KEY && HOSTS_KEY != WHOLE_KEY
    ensures PORT_KEY != CHROOT_KEY && PORT_KEY != WHOLE_KEY && CHROOT_KEY != WHOLE_KEY
  {
    assert |HOSTS_KEY| == 15 && |PORT_KEY| == 14 && |CHROOT_KEY| == 16 && |WHOLE_KEY| == 9;
  }

  // The outcome of AddData; writing into a ConfigMap without a data map panics.
  datatype Outcome = Added | InvalidZookeeper | InvalidHostAndPort | NilMap

  // The text has the form host:port/middle/chroot, with no further separators.
  ghost predicate HasParts(zookeeper: string, host: string, port: string, middle: string, chroot: string) {
    && zookeeper == host + ":" + port + "/" + middle + "/" + chroot
    && ':' !in host && ':' !in port
    && '/' !in host && '/' !in port && '/' !in middle && '/' !in chroot
  }

  // Two slashes, and one colon before the first of them.
  predicate WellFormed(zookeeper: string) {
    Occurrences(zookeeper, '/') == 2 && Occurrences(Cut(zookeeper, '/').0, ':') == 1
  }

  class ZnodeConfiguration {
    // ConfigMap.Data; None is Go's nil map, which reads as empty.
    var data: Option<map<string, string>>

    function Lookup(key: string): Option<string>
      reads this
    {
      if data.Some? && key in data.value then Some(data.value[key]) else None
    }

    function GetQuorum(): Option<string> reads this { Lookup(HOSTS_KEY) }
    function GetClientPort(): Option<string> reads this { Lookup(PORT_KEY) }
    function GetChroot(): Option<string> reads this { Lookup(CHROOT_KEY) }
    function GetZookeeper(): Option<string> reads this { Lookup(WHOLE_KEY) }

    /**
     Accepts exactly the well-formed texts.  Then the getters return the one way to take the text
     apart, and every other key is as before; otherwise nothing changes.
     */
    method AddData(zookeeper: string) returns (outcome: Outcome)
      modifies this
      ensures outcome.Added? <==> WellFormed(zookeeper) && old(data).Some?
      ensures outcome.NilMap? <==> WellFormed(zookeeper) && old(data).None?
      ensures outcome.InvalidZookeeper? <==> Occurrences(zookeeper, '/') != 2
      ensures !outcome.Added? ==> data == old(data)
      ensures outcome.Added? ==>
                && GetQuorum().Some? && GetClientPort().Some? && GetChroot().Some?
                && GetZookeeper() == Some(zookeeper)
                && exists middle ::
                     HasParts(zookeeper, GetQuorum().value, GetClientPort().value, middle, GetChroot().value)
      ensures outcome.Added? ==>
                forall key :: key != HOSTS_KEY && key != PORT_KEY && key != CHROOT_KEY && key != WHOLE_KEY ==>
                  Lookup(key) == old(Lookup(key))
    {
      KeysAreDistinct();
      var parts := Split(zookeeper, '/');
      SplitPiecesAreFree(zookeeper, '/');
      JoinSplit(zookeeper, '/');
      if |parts| != 3 {
        return InvalidZookeeper;
      }
      var hostAndPort := Split(parts[0], ':');
      SplitPiecesAreFree(parts[0], ':');
      JoinSplit(parts[0], ':');
      FirstPiece(zookeeper, '/');
      if |hostAndPort| != 2 {
        return InvalidHostAndPort;
      }
      JoinedParts(zookeeper, parts, hostAndPort);
      if data.None? {
        return NilMap;
      }
      data := Some(data.value[HOSTS_KEY := hostAndPort[0]]);
      data := Some(data.value[PORT_KEY := hostAndPort[1]]);
      data := Some(data.value[CHROOT_KEY := parts[2]]);
      data := Some(data.value[WHOLE_KEY := zookeeper]);
      assert HasParts(zookeeper, hostAndPort[0], hostAndPort[1], parts[1], parts[2]);
      return Added;
    }
  }

  lemma {:induction false} FirstPiece(s: string, sep: char)
    ensures Split(s, sep)[0] == Cut(s, sep).0
  {
    if s != "" && s[0] != sep { FirstPiece(s[1..], sep); }
  }

  lemma JoinedParts(zookeeper: string, parts: seq<string>, hostAndPort: seq<string>)
    requires |parts| == 3 && AllFree(parts, '/') && Join(parts, "/") == zookeeper
    requires |hostAndPort| == 2 && AllFree(hostAndPort, ':') && Join(hostAndPort, ":") == parts[0]
    ensures HasParts(zookeeper, hostAndPort[0], hostAndPort[1], parts[1], parts[2])
  {
    var (host, port) := (hostAndPort[0], hostAndPort[1]);
    JoinTwo(host, port, ":");
    assert hostAndPort == [host, port];
    JoinTwo(parts[1], parts[2], "/");
    assert parts[1..] == [parts[1], parts[2]];
    assert zookeeper == parts[0] + "/" + (parts[1] + "/" + parts[2]);
    FreePieces(host, port, '/');
  }

  lemma JoinTwo(a: string, b: string, sep: string)
    ensures Join([a, b], sep) == a + sep + b
  {
    assert [a, b][1..] == [b];
    assert Join([b], sep) == b;
  }

  lemma FreePieces(host: string, port: string, c: char)
    requires c !in host + ":" + port
    ensures c !in host && c !in port
  {
    var whole := host + ":" + port;
    assert forall i :: 0 <= i < |host| ==> host[i] == whole[i];
    assert forall i :: 0 <= i < |port| ==> port[i] == whole[|host| + 1 + i];
  }

  /** A text can be taken apart in at most one way. */
  lemma PartsAreUnique(zookeeper: string, h: string, p: string, m: string, c: string,
                       h': string, p': string, m': string, c': string)
    requires HasParts(zookeeper, h, p, m, c) && HasParts(zookeeper, h', p', m', c')
    ensures h == h' && p == p' && m == m' && c == c'
  {
    PartsAreTheSplit(zookeeper, h, p, m, c);
    PartsAreTheSplit(zookeeper, h', p', m', c');
  }

  lemma PartsAreTheSplit(zookeeper: string, h: string, p: string, m: string, c: string)
    requires HasParts(zookeeper, h, p, m, c)
    ensures Split(zookeeper, '/') == [h + ":" + p, m, c] && Split(h + ":" + p, ':') == [h, p]
  {
    var address := h + ":" + p;
    assert zookeeper == address + "/" + (m + "/" + c);
    SplitAtFirst(address, '/', m + "/" + c);
    SplitAtFirst(m, '/', c);
    SplitOfFree(c, '/');
    SplitAtFirst(h, ':', p);
    SplitOfFree(p, ':');
  }

  /** Exactly the texts of the form host:port/middle/chroot are well-formed. */
  lemma WellFormedExactly(zookeeper: string)
    ensures WellFormed(zookeeper) <==> exists h, p, m, c :: HasParts(zookeeper, h, p, m, c)
  {
    var parts := Split(zookeeper, '/');
    SplitPiecesAreFree(zookeeper, '/');
    FirstPiece(zookeeper, '/');
    SplitPiecesAreFree(parts[0], ':');
    if WellFormed(zookeeper) {
      JoinSplit(zookeeper, '/');
      JoinSplit(parts[0], ':');
      JoinedParts(zookeeper, parts, Split(parts[0], ':'));
    }
    forall h, p, m, c | HasParts(zookeeper, h, p, m, c) ensures WellFormed(zookeeper) {
      PartsAreTheSplit(zookeeper, h, p, m, c);
    }
  }

  /** The form that the comment above AddData gives as an example, an address and one path element,
      is rejected. */
  lemma OneSlashIsRejected(address: string, znode: string)
    requires '/' !in address && '/' !in znode
    ensures !WellFormed(address + "/" + znode)
  {
    SplitPiecesAreFree(address + "/" + znode, '/');
    SplitAtFirst(address, '/', znode);
    SplitOfFree(znode, '/');
  }
}
