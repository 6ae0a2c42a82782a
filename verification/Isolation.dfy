/**
 Tenant isolation from bootstrap to stream: the tokens that open the event streams are those
 the wallet registry has issued.
 */
module Isolation {
  import opened Auth
  import opened Tokens
  import Registry
  import Grants
  import Streams

  /** The pair an access token belongs to goes back to the bootstrap of a wallet on disk. */
  lemma TokenDescends(s: Registry.State, c: Claims) returns (root: Registry.Grant)
    requires Grants.TokenInv(s) && c in Grants.Signed(s.grants) && c.typ == "access"
    ensures root in s.grants && root.origin.Bootstrapped?
    ensures root.tenantID == c.tenantID && root.walletID == c.walletID
    ensures WalletKey(c.tenantID, c.walletID) in Registry.KeySet(Registry.DiskList(s.disk))
  {
    hide Registry.KeySet, WalletKey, Grants.UniqueBootstraps;
    assert |"access"| != |"refresh"|;
    assert forall h | h in s.grants :: h.refresh != c;
    var g :| g in s.grants && g.access == c;
    var i: nat :| i < |s.grants| && s.grants[i] == g;
    assert Grants.Rooted(s.grants, i);
    var j :| 0 <= j <= i && s.grants[j].origin.Bootstrapped? && Grants.SameOwner(s.grants[j], s.grants[i]);
    root := s.grants[j];
  }

  /**
   In every run of the registry and of the streams, an event that a stream sends comes from a
   wallet of the tenant for which some wallet on disk was created or restored and the stream's
   token pair issued, directly or by refreshes; from that very wallet when the request names one.
   */
  lemma StreamsServeTheBootstrapped(env: Registry.Env, disk: Registry.Disk, calls: seq<Registry.Event>,
                                    feed: Streams.Feed, run: seq<Streams.Action>, k: nat, v: Streams.Event)
    returns (root: Registry.Grant, i: nat)
    requires Registry.Sound(env) && Grants.FaithfulClaims(env) && Registry.ValidDisk(disk)
    requires Grants.HonestRun(env, disk, calls)
    requires feed.auth.enabled && feed.auth.keys == env.keys
    requires var streams := Streams.Run(feed, run).streams;
      && k < |streams| && v in streams[k].sent + streams[k].unsent
      && Unforged(env.keys, Grants.Signed(Registry.Run(env, disk, calls).grants), Presented(Streams.CallOf(feed, streams[k])))
    ensures var s, system := Registry.Run(env, disk, calls), Streams.Run(feed, run);
      && root in s.grants && root.origin.Bootstrapped?
      && WalletKey(root.tenantID, root.walletID) in Registry.KeySet(Registry.DiskList(s.disk))
      && i < |system.emitted| && system.emitted[i].event == v
      && system.emitted[i].source.tenantID == root.tenantID
      && (system.streams[k].scope.walletID != "" ==> system.emitted[i].source.walletID == root.walletID)
  {
    hide Registry.Run, Streams.Run, Grants.HonestRun, Unforged, Grants.TokenInv;
    Grants.RunTokens(env, disk, calls);
    var c: Claims;
    c, i := Streams.StreamsIsolated(feed, run, k, v, Grants.Signed(Registry.Run(env, disk, calls).grants));
    root := TokenDescends(Registry.Run(env, disk, calls), c);
  }
}
