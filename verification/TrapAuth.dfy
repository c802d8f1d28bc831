/** Which traps the listener accepts: the security level of an entry as the USM builder derives it
    and as the authorization check demands it (RFC 3412 section 6.4). */
module TrapAuth {
  import Ber
  import opened Bits
  import opened Options
  import opened SnmpConfig

  /* gosnmp's numbering: anything above NO_AUTH or NO_PRIV is a real protocol. */
  const NO_AUTH := 1
  const NO_PRIV := 1
  const NO_AUTH_NO_PRIV: nat := 0x0
  const AUTH_NO_PRIV: nat := 0x1
  const AUTH_PRIV: nat := 0x3
  const USER_SECURITY_MODEL := 3
  const VERSION_3 := 3

  /** USM security parameters; authorization reads the two protocols only. */
  datatype Usm = Usm(user: string, auth: int, authPassphrase: string, priv: int, privacyPassphrase: string)

  function MapAuthProtocol(upper: Upper, p: string): int {
    match upper(p)
    case "SHA" => 3
    case "SHA256" => 5
    case "SHA384" => 6
    case "SHA512" => 7
    case "MD5" => 2
    case _ => NO_AUTH
  }

  function MapPrivacyProtocol(upper: Upper, p: string): int {
    match upper(p)
    case "AES" => 3
    case "AES192" => 4
    case "AES256" => 5
    case "DES" => 2
    case _ => NO_PRIV
  }

  /** `connection.USM`: the parameters and the level they imply. */
  function BuildUsm(upper: Upper, a: Auth): (Usm, nat) {
    var auth, priv := MapAuthProtocol(upper, a.authProtocol), MapPrivacyProtocol(upper, a.privacyProtocol);
    var flags :=
      if auth != NO_AUTH && priv != NO_PRIV then AUTH_PRIV
      else if auth != NO_AUTH then AUTH_NO_PRIV
      else NO_AUTH_NO_PRIV;
    (Usm(a.username, auth, a.authPassphrase, priv, a.privacyPassphrase), flags)
  }

  /** The level `isAuthorized` demands of a packet that matched these parameters. */
  function Wanted(u: Usm): nat {
    if u.priv > NO_PRIV then AUTH_PRIV
    else if u.auth > NO_AUTH then AUTH_NO_PRIV
    else NO_AUTH_NO_PRIV
  }

  datatype Packet = Packet(version: int, securityModel: int, flags: nat, usm: Option<Usm>, community: string)

  /** The listener's table after construction. */
  datatype Trapper = Trapper(communities: seq<string>, acceptAll: bool, users: map<string, seq<Usm>>)

  /** `trapper.New` on the entries `newTrapper` builds from the accepted list; `adds(i)` says whether the
      security table takes the parameters of entry `i`. */
  method NewTrapper(upper: Upper, cfg: Config, names: seq<string>, adds: nat -> bool) returns (t: Option<Trapper>)
    requires forall i :: 0 <= i < |names| ==> names[i] in cfg.auth
    ensures t.None? <==> exists i: nat :: i < |names| && cfg.auth[names[i]].version == "v3" && !adds(i)
    ensures t.Some? ==> t.value == Trapper(Communities(cfg, names), names == [], Users(upper, cfg, names))
    ensures t.Some? ==> forall p: Packet, encrypted: bool :: p.version != 3 ==>
      (Authorized(t.value, p, encrypted) <==> names == [] || ListsCommunity(cfg, names, p.community))
    ensures t.Some? ==> forall user: string, u: Usm ::
      u in Entries(t.value.users, user) <==> ListsUser(upper, cfg, names, user, u)
  {
    var communities: seq<string>, users: map<string, seq<Usm>> := [], map[];
    for i := 0 to |names|
      invariant communities == Communities(cfg, names[..i]) && users == Users(upper, cfg, names[..i])
      invariant forall j: nat :: j < i && cfg.auth[names[j]].version == "v3" ==> adds(j)
    {
      var a := cfg.auth[names[i]];
      assert names[..i + 1][..i] == names[..i];
      if a.version == "v2c" {
        communities := communities + [a.community];
      } else if a.version == "v3" {
        var (u, _) := BuildUsm(upper, a);
        if !adds(i) {
          return None;
        }
        users := users[a.username := Entries(users, a.username) + [u]];
      }
    }
    assert names[..|names|] == names;
    CommunitiesListed(cfg, names);
    UsersListed(upper, cfg, names);
    return Some(Trapper(communities, |names| == 0, users));
  }

  /** Some v2c entry of the list has this community. */
  ghost predicate ListsCommunity(cfg: Config, names: seq<string>, community: string)
    requires forall i :: 0 <= i < |names| ==> names[i] in cfg.auth
  {
    exists i :: 0 <= i < |names| && cfg.auth[names[i]].version == "v2c" && cfg.auth[names[i]].community == community
  }

  /** Some v3 entry of the list has this user and stands for these parameters. */
  ghost predicate ListsUser(upper: Upper, cfg: Config, names: seq<string>, user: string, u: Usm)
    requires forall i :: 0 <= i < |names| ==> names[i] in cfg.auth
  {
    exists i :: 0 <= i < |names| && IsEntryOf(upper, cfg.auth[names[i]], user, u)
  }

  predicate IsEntryOf(upper: Upper, a: Auth, user: string, u: Usm) {
    && a.version == "v3" && a.username == user && u.user == user
    && u.auth == MapAuthProtocol(upper, a.authProtocol) && u.authPassphrase == a.authPassphrase
    && u.priv == MapPrivacyProtocol(upper, a.privacyProtocol) && u.privacyPassphrase == a.privacyPassphrase
  }

  lemma {:induction false} CommunitiesListed(cfg: Config, names: seq<string>)
    requires forall i :: 0 <= i < |names| ==> names[i] in cfg.auth
    ensures forall c :: c in Communities(cfg, names) <==> ListsCommunity(cfg, names, c)
  {
    if names != [] {
      var n := |names| - 1;
      CommunitiesListed(cfg, names[..n]);
      forall c ensures c in Communities(cfg, names) <==> ListsCommunity(cfg, names, c) {
        if ListsCommunity(cfg, names[..n], c) {
          var i :| 0 <= i < n && cfg.auth[names[..n][i]].version == "v2c" && cfg.auth[names[..n][i]].community == c;
          assert names[i] == names[..n][i];
        }
        if i :| 0 <= i < |names| && cfg.auth[names[i]].version == "v2c" && cfg.auth[names[i]].community == c {
          if i < n { assert names[..n][i] == names[i]; }
        }
      }
    }
  }

  lemma {:induction false} UsersListed(upper: Upper, cfg: Config, names: seq<string>)
    requires forall i :: 0 <= i < |names| ==> names[i] in cfg.auth
    ensures forall user, u :: u in Entries(Users(upper, cfg, names), user) <==> ListsUser(upper, cfg, names, user, u)
  {
    if names != [] {
      var n := |names| - 1;
      UsersListed(upper, cfg, names[..n]);
      forall user, u
        ensures u in Entries(Users(upper, cfg, names), user) <==> ListsUser(upper, cfg, names, user, u)
      {
        OneMoreUser(upper, cfg, names, user, u);
      }
    }
  }

  lemma OneMoreUser(upper: Upper, cfg: Config, names: seq<string>, user: string, u: Usm)
    requires names != [] && forall i :: 0 <= i < |names| ==> names[i] in cfg.auth
    requires var init := names[..|names| - 1];
      u in Entries(Users(upper, cfg, init), user) <==> ListsUser(upper, cfg, init, user, u)
    ensures u in Entries(Users(upper, cfg, names), user) <==> ListsUser(upper, cfg, names, user, u)
  {
    var n := |names| - 1;
    if ListsUser(upper, cfg, names[..n], user, u) {
      var i :| 0 <= i < n && IsEntryOf(upper, cfg.auth[names[..n][i]], user, u);
      assert IsEntryOf(upper, cfg.auth[names[i]], user, u);
    }
    if i :| 0 <= i < |names| && IsEntryOf(upper, cfg.auth[names[i]], user, u) {
      if i < n { assert IsEntryOf(upper, cfg.auth[names[..n][i]], user, u); }
    }
  }

  function Entries(users: map<string, seq<Usm>>, user: string): seq<Usm> {
    if user in users then users[user] else []
  }

  function Communities(cfg: Config, names: seq<string>): seq<string>
    requires forall i :: 0 <= i < |names| ==> names[i] in cfg.auth
  {
    if names == [] then [] else
    var n := |names| - 1;
    var a := cfg.auth[names[n]];
    Communities(cfg, names[..n]) + if a.version == "v2c" then [a.community] else []
  }

  function Users(upper: Upper, cfg: Config, names: seq<string>): map<string, seq<Usm>>
    requires forall i :: 0 <= i < |names| ==> names[i] in cfg.auth
  {
    if names == [] then map[] else
    var n := |names| - 1;
    var a := cfg.auth[names[n]];
    var before := Users(upper, cfg, names[..n]);
    if a.version == "v3" then before[a.username := Entries(before, a.username) + [BuildUsm(upper, a).0]] else before
  }

  /** `isAuthorized`. */
  method IsAuthorized(t: Trapper, p: Packet, encrypted: bool) returns (ok: bool)
    ensures ok == Authorized(t, p, encrypted)
    ensures p.version == 3 && p.usm.None? ==> !ok
  {
    if p.version == VERSION_3 {
      if p.securityModel != USER_SECURITY_MODEL { return false; }
      LowTwoBits(p.flags);
      if And(p.flags, AUTH_PRIV) == AUTH_PRIV && !encrypted { return false; }
      if p.usm.None? { return false; }
      var want := NO_AUTH_NO_PRIV;
      if p.usm.value.auth > NO_AUTH { want := AUTH_NO_PRIV; }
      if p.usm.value.priv > NO_PRIV { want := AUTH_PRIV; }
      return And(p.flags, want) == want;
    }
    if t.acceptAll { return true; }
    for i := 0 to |t.communities|
      invariant p.community !in t.communities[..i]
    {
      if t.communities[i] == p.community { return true; }
    }
    return false;
  }

  /** Both bits of the privacy flag are set. */
  predicate ClaimsPrivacy(flags: nat) {
    flags % 4 == 3
  }

  /** The claimed level includes level `want`. */
  predicate Includes(flags: nat, want: nat) {
    && (want == AUTH_NO_PRIV ==> flags % 2 == 1)
    && (want == AUTH_PRIV ==> flags % 4 == 3)
  }

  /** The decision, without the bit arithmetic. */
  predicate Authorized(t: Trapper, p: Packet, encrypted: bool) {
    if p.version == VERSION_3 then
      && p.securityModel == USER_SECURITY_MODEL
      && (ClaimsPrivacy(p.flags) ==> encrypted)
      && p.usm.Some?
      && Includes(p.flags, Wanted(p.usm.value))
    else
      t.acceptAll || p.community in t.communities
  }

  /* ---- the two derivations of the level ---- */

  lemma ProtocolsMapped(upper: Upper, p: string)
    ensures MapAuthProtocol(upper, p) > NO_AUTH <==> upper(p) in AUTH_PROTOCOLS
    ensures MapPrivacyProtocol(upper, p) > NO_PRIV <==> upper(p) in PRIVACY_PROTOCOLS
    ensures MapAuthProtocol(upper, p) >= NO_AUTH && MapPrivacyProtocol(upper, p) >= NO_PRIV
  {
  }

  /** No two protocols are taken for one another. */
  lemma ProtocolsDistinct(upper: Upper, p: string, q: string)
    ensures upper(p) in AUTH_PROTOCOLS && MapAuthProtocol(upper, p) == MapAuthProtocol(upper, q) ==>
      upper(p) == upper(q)
    ensures upper(p) in PRIVACY_PROTOCOLS && MapPrivacyProtocol(upper, p) == MapPrivacyProtocol(upper, q) ==>
      upper(p) == upper(q)
  {
  }

  /** The builder and the check agree on an entry if and only if privacy comes with authentication. */
  lemma LevelsAgree(upper: Upper, a: Auth)
    ensures BuildUsm(upper, a).1 == Wanted(BuildUsm(upper, a).0) <==>
      (upper(a.privacyProtocol) in PRIVACY_PROTOCOLS ==> upper(a.authProtocol) in AUTH_PROTOCOLS)
  {
    ProtocolsMapped(upper, a.authProtocol);
    ProtocolsMapped(upper, a.privacyProtocol);
  }

  /** Validation guarantees it, and that a protocol the user named is not silently dropped. The
      empty name must stay unknown after upper-casing, as it does. */
  lemma ValidatedLevels(upper: Upper, a: Auth)
    requires GoodAuth(upper, a) && a.version == "v3" && upper("") == ""
    ensures BuildUsm(upper, a).1 == Wanted(BuildUsm(upper, a).0)
    ensures BuildUsm(upper, a).1 == if a.privacyProtocol != "" then 3 else if a.authProtocol != "" then 1 else 0
  {
    assert forall k :: k in AUTH_PROTOCOLS + PRIVACY_PROTOCOLS ==> |k| > 0;
    ProtocolsMapped(upper, a.authProtocol);
    ProtocolsMapped(upper, a.privacyProtocol);
    LevelsAgree(upper, a);
  }

  /** The mismatch an unvalidated entry can have: privacy without authentication is built as no
      security at all, while the check demands both. */
  lemma PrivacyAloneDisagrees(upper: Upper)
    requires upper("") == "" && upper("AES") == "AES"
    ensures var a := Auth("v3", "", "user", "", "", "AES", "secret-key");
            BuildUsm(upper, a).1 == 0 && Wanted(BuildUsm(upper, a).0) == 3
  {
  }

  /* ---- the table the listener works with ---- */

  /** With a validated list, each user has exactly one set of parameters, from its own entry. */
  lemma {:induction false} OneEntryPerUser(upper: Upper, cfg: Config, names: seq<string>, i: nat)
    requires forall k :: 0 <= k < |names| ==> names[k] in cfg.auth
    requires DistinctUsers(cfg, names) && i < |names| && V3User(cfg, names[i]).Some?
    ensures V3User(cfg, names[i]).value in Users(upper, cfg, names)
    ensures Users(upper, cfg, names)[V3User(cfg, names[i]).value] == [BuildUsm(upper, cfg.auth[names[i]]).0]
  {
    var n, user := |names| - 1, V3User(cfg, names[i]).value;
    if i < n {
      OneEntryPerUser(upper, cfg, names[..n], i);
      assert V3User(cfg, names[n]) != Some(user);
    } else {
      NoEntryYet(upper, cfg, names[..n], user);
    }
  }

  lemma {:induction false} NoEntryYet(upper: Upper, cfg: Config, names: seq<string>, user: string)
    requires forall k :: 0 <= k < |names| ==> names[k] in cfg.auth && V3User(cfg, names[k]) != Some(user)
    ensures user !in Users(upper, cfg, names)
  {
    if names != [] { NoEntryYet(upper, cfg, names[..|names| - 1], user); }
  }

  /** What a validated configuration accepts from a v3 user it lists: exactly the packets of the
      user security model that claim at least the configured level and whose privacy claim, if any,
      is backed by an encrypted PDU. */
  lemma V3TrapAcceptedIff(upper: Upper, cfg: Config, t: Trapper, i: nat, p: Packet, encrypted: bool)
    requires WellFormed(upper, cfg) && cfg.listener.Some? && upper("") == ""
    requires i < |cfg.listener.value.accepted| && V3User(cfg, cfg.listener.value.accepted[i]).Some?
    requires t.users == Users(upper, cfg, cfg.listener.value.accepted)
    requires p.version == 3 && p.usm.Some?
    requires p.usm.value in Entries(t.users, V3User(cfg, cfg.listener.value.accepted[i]).value)
    ensures var a := cfg.auth[cfg.listener.value.accepted[i]];
      Authorized(t, p, encrypted) <==>
        && p.securityModel == 3
        && (p.flags % 4 == 3 ==> encrypted)
        && (a.privacyProtocol != "" ==> p.flags % 4 == 3)
        && (a.authProtocol != "" ==> p.flags % 2 == 1)
  {
    var name := cfg.listener.value.accepted[i];
    OneEntryPerUser(upper, cfg, cfg.listener.value.accepted, i);
    assert GoodAuth(upper, cfg.auth[name]);
    ClaimsEnough(upper, cfg.auth[name], p.flags);
  }

  /** Which flags claim the level of a validated entry. */
  lemma ClaimsEnough(upper: Upper, a: Auth, flags: nat)
    requires GoodAuth(upper, a) && a.version == "v3" && upper("") == ""
    ensures Includes(flags, Wanted(BuildUsm(upper, a).0)) <==>
      (a.privacyProtocol != "" ==> flags % 4 == 3) && (a.authProtocol != "" ==> flags % 2 == 1)
  {
    ValidatedLevels(upper, a);
  }

  /** A packet at exactly the level of the entry passes when its privacy claim is backed. */
  lemma ExactLevelAccepted(upper: Upper, a: Auth, t: Trapper, p: Packet, encrypted: bool)
    requires GoodAuth(upper, a) && a.version == "v3" && upper("") == ""
    requires p.version == 3 && p.securityModel == 3
    requires p.usm == Some(BuildUsm(upper, a).0) && p.flags == BuildUsm(upper, a).1
    requires p.flags == 3 ==> encrypted
    ensures Authorized(t, p, encrypted)
  {
    ValidatedLevels(upper, a);
  }

  /** Raising the level of the matched entry never admits a packet the lower level rejected, and
      neither does a claim of a higher level that is not encrypted. */
  lemma StrengtheningIsSafe(t: Trapper, p: Packet, weaker: Usm, stronger: Usm, encrypted: bool)
    requires p.version == 3 && Wanted(weaker) <= Wanted(stronger)
    requires Authorized(t, p.(usm := Some(stronger)), encrypted)
    ensures Authorized(t, p.(usm := Some(weaker)), encrypted)
  {
  }

  /* ---- one datagram ---- */

  /** The authorization part of `receive`: the walker runs on the raw message only under the
      privacy flag. */
  method Accept(t: Trapper, p: Packet, msg: Ber.Bytes) returns (ok: bool)
    ensures ok == Authorized(t, p, p.flags % 4 == 3 && Ber.FourthIsOctetString(msg))
  {
    LowTwoBits(p.flags);
    var encrypted := And(p.flags, AUTH_PRIV) == AUTH_PRIV;
    if encrypted {
      encrypted := Ber.ScopedPDUEncrypted(msg);
    }
    ok := IsAuthorized(t, p, encrypted);
  }

  /** A v3 trap for a user configured with privacy gets through only if its raw message really has
      an OCTET STRING as the fourth element of its one outer element. */
  lemma PrivacyMeansEncrypted(upper: Upper, a: Auth, t: Trapper, p: Packet, msg: Ber.Bytes)
    requires GoodAuth(upper, a) && a.version == "v3" && a.privacyProtocol != "" && upper("") == ""
    requires p.version == 3 && p.usm == Some(BuildUsm(upper, a).0)
    requires Authorized(t, p, p.flags % 4 == 3 && Ber.FourthIsOctetString(msg))
    ensures exists outer: Ber.Element, es: seq<Ber.Element> ::
      Ber.SplitsAs(msg, outer) && Ber.FourElements(outer.content, es) && es[3].tag == 0x04
  {
    ValidatedLevels(upper, a);
    Ber.WalkerExact(msg);
  }
}
