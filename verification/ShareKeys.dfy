/**
 Share keys: "<claimUID>/<request>/<device>/<shareID>".

 A key names one allocation share. The ledger cuts the claim back out of a key when it
 recovers from a checkpoint, and splits all four parts when it must release a claim that
 never finished preparing.
 */
module ShareKeys {
  import opened Wrappers

  /** An absent share ID is printed as the empty string. */
  function IdText(shareID: Option<string>): string {
    if shareID.Some? then shareID.value else ""
  }

  function ShareKey(claim: string, request: string, device: string, shareID: Option<string>): string {
    claim + "/" + request + "/" + device + "/" + IdText(shareID)
  }

  predicate SlashFree(s: string) {
    '/' !in s
  }

  /** The position of the first slash, or the length of the text when there is none. */
  function FirstSlash(s: string): (n: nat)
    ensures n <= |s| && SlashFree(s[..n]) && (n < |s| ==> s[n] == '/')
  {
    if s == "" || s[0] == '/' then 0
    else
      var n := 1 + FirstSlash(s[1..]);
      assert s[..n] == [s[0]] + s[1..][..n - 1];
      n
  }

  /** Cut at the first slash into the text before it and the text after it. */
  function Cut(s: string): (r: Option<(string, string)>)
    ensures r.Some? ==> SlashFree(r.value.0) && s == r.value.0 + "/" + r.value.1
  {
    var i := FirstSlash(s);
    if i == |s| then None else Some((s[..i], s[i + 1..]))
  }

  datatype KeyParts = KeyParts(claim: string, request: string, device: string, id: string)

  /** Split at the first three slashes; the last part keeps any slashes that remain. */
  function Parts(key: string): Option<KeyParts> {
    var (claim, afterClaim) :- Cut(key);
    var (request, afterRequest) :- Cut(afterClaim);
    var (device, id) :- Cut(afterRequest);
    Some(KeyParts(claim, request, device, id))
  }

  /** The first part of a key, or the empty string when the key has no slash. */
  function ClaimOf(key: string): string {
    if Cut(key).Some? then Cut(key).value.0 else ""
  }

  /** The third part of a key, or the empty string when the key is not of the form above. */
  function DeviceOf(key: string): string {
    if Parts(key).Some? then Parts(key).value.device else ""
  }

  lemma {:induction false} CutAt(a: string, rest: string)
    requires SlashFree(a)
    ensures FirstSlash(a + "/" + rest) == |a|
  {
    if a != "" {
      assert (a + "/" + rest)[1..] == a[1..] + "/" + rest;
      CutAt(a[1..], rest);
    }
  }

  lemma CutsAt(a: string, rest: string)
    requires SlashFree(a)
    ensures Cut(a + "/" + rest) == Some((a, rest))
  {
    CutAt(a, rest);
    var s := a + "/" + rest;
    assert s[..|a|] == a && s[|a| + 1..] == rest;
  }

  /** Encoding then decoding gives the fields back exactly when the claim, the request and the
      device are free of slashes. The share ID may be any text. */
  lemma DecodesIffSlashFree(claim: string, request: string, device: string, shareID: Option<string>)
    ensures Parts(ShareKey(claim, request, device, shareID))
            == Some(KeyParts(claim, request, device, if shareID.Some? then shareID.value else ""))
            <==> SlashFree(claim) && SlashFree(request) && SlashFree(device)
  {
    hide FirstSlash, ShareKey;
    if SlashFree(claim) && SlashFree(request) && SlashFree(device) {
      SlashFreeDecodes(claim, request, device, shareID);
    }
  }

  lemma SlashFreeDecodes(claim: string, request: string, device: string, shareID: Option<string>)
    requires SlashFree(claim) && SlashFree(request) && SlashFree(device)
    ensures var key := ShareKey(claim, request, device, shareID);
            && Parts(key) == Some(KeyParts(claim, request, device, IdText(shareID)))
            && ClaimOf(key) == claim && DeviceOf(key) == device
  {
    hide Cut, FirstSlash, ShareKey;
    var id := IdText(shareID);
    var afterRequest := device + "/" + id;
    var afterClaim := request + "/" + afterRequest;
    KeyNests(claim, request, device, shareID);
    CutsAt(claim, afterClaim);
    CutsAt(request, afterRequest);
    CutsAt(device, id);
  }

  lemma KeyNests(claim: string, request: string, device: string, shareID: Option<string>)
    ensures ShareKey(claim, request, device, shareID)
            == claim + "/" + (request + "/" + (device + "/" + IdText(shareID)))
  {
    Regroup(claim + "/" + request + "/" + device, "/", IdText(shareID));
    Regroup(claim + "/" + request, "/", device);
    Regroup(claim + "/" + request, "/" + device, "/" + IdText(shareID));
    Regroup(claim, "/", request);
    Regroup(claim + "/", request, "/" + device + "/" + IdText(shareID));
  }

  lemma Regroup(a: string, b: string, c: string)
    ensures a + b + c == a + (b + c)
  {
  }

  /** Distinct shares have distinct keys; only "no share ID" and "empty share ID" coincide. */
  lemma KeysAreInjective(c1: string, r1: string, d1: string, s1: Option<string>,
                         c2: string, r2: string, d2: string, s2: Option<string>)
    requires SlashFree(c1) && SlashFree(r1) && SlashFree(d1)
    requires SlashFree(c2) && SlashFree(r2) && SlashFree(d2)
    ensures ShareKey(c1, r1, d1, s1) == ShareKey(c2, r2, d2, s2)
            <==> c1 == c2 && r1 == r2 && d1 == d2
                 && (s1 == s2 || (s1 in {None, Some("")} && s2 in {None, Some("")}))
  {
    SlashFreeDecodes(c1, r1, d1, s1);
    SlashFreeDecodes(c2, r2, d2, s2);
  }

  /** A request allocated through a sub-request is named "main/sub". Its key then decodes to the
      sub-request where the device should be. */
  lemma SubRequestHidesTheDevice(claim: string, main: string, sub: string, device: string, shareID: Option<string>)
    requires SlashFree(claim) && SlashFree(main) && SlashFree(sub)
    ensures Parts(ShareKey(claim, main + "/" + sub, device, shareID))
            == Some(KeyParts(claim, main, sub, device + "/" + if shareID.Some? then shareID.value else ""))
    ensures DeviceOf(ShareKey(claim, main + "/" + sub, device, shareID)) == sub
  {
    hide Cut, FirstSlash, ShareKey;
    var id := device + "/" + IdText(shareID);
    SlashFreeDecodes(claim, main, sub, Some(id));
    KeyNests(claim, main + "/" + sub, device, shareID);
    KeyNests(claim, main, sub, Some(id));
    Regroup(main + "/" + sub, "/", id);
    Regroup(main + "/", sub, "/" + id);
    Regroup(sub, "/", id);
  }
}
