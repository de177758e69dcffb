/** The keys of a session as symbolic terms.

    A hello carries the public half of a fresh private key; here both halves are the same number, and the shared
    secret of two keys is the unordered pair. A derived key is a term over the secret, the transcript and a direction:
    two derivations agree exactly when all of these agree. */
module SessionKeys {
  import opened Options

  datatype Hello = Hello(sessionID: nat, peerID: nat, key: nat)

  datatype Key = Key(secret: set<nat>, first: Hello, second: Hello, fromFirst: bool)

  datatype Ciphers = Ciphers(send: Key, receive: Key)

  /** Two different peers, one session. */
  predicate ValidPair(local: Hello, remote: Hello) {
    && local.peerID != 0 && remote.peerID != 0 && local.peerID != remote.peerID
    && local.sessionID != 0 && local.sessionID == remote.sessionID
  }

  /** The smaller peer's hello comes first on both sides. */
  function Transcript(local: Hello, remote: Hello): (Hello, Hello, bool) {
    if local.peerID < remote.peerID then (local, remote, true) else (remote, local, false)
  }

  function DeriveSession(key: nat, local: Hello, remote: Hello): Option<Ciphers> {
    if !ValidPair(local, remote) || key != local.key then None
    else
      var secret := {key, remote.key};
      var (first, second, localFirst) := Transcript(local, remote);
      var forth, back := Key(secret, first, second, true), Key(secret, first, second, false);
      Some(if localFirst then Ciphers(forth, back) else Ciphers(back, forth))
  }

  /** Two derivations give swapped keys exactly when their hellos mirror each other. */
  lemma SwappedIffMirrored(k: nat, local: Hello, remote: Hello, m: nat, local': Hello, remote': Hello)
    requires DeriveSession(k, local, remote).Some? && DeriveSession(m, local', remote').Some?
    ensures var mine, theirs := DeriveSession(k, local, remote).value, DeriveSession(m, local', remote').value;
      && (mine.send == theirs.receive <==> local' == remote && remote' == local)
      && (mine.receive == theirs.send <==> local' == remote && remote' == local)
      && (mine.send == theirs.send <==> local' == local && remote' == remote)
      && mine.send != mine.receive
  {
  }
}
