/** The canonical byte strings that are authenticated or signed (`protocol/crypto.go:245-255`,
    `393-518`, `558-592`). */
module Payloads {
  import opened Prelude
  import opened Encodings

  const KEY_ID_LENGTH := 32
  const NAMESPACE_ID_LENGTH := 16
  const INVITE_ID_LENGTH := 16
  const ITEM_ID_LENGTH := 32
  const HASH_LENGTH := 32
  const PUBLIC_KEY_LENGTH := 32
  const CHALLENGE_LENGTH := 32

  const ITEM_AAD_PREFIX := Ascii("bitboxsync-item-aad")
  const INTENT_PREFIX := Ascii("bitboxsync-intent")
  const JOIN_REQUEST_PREFIX := Ascii("bitboxsync-join-request")

  type Uint64 = n: nat | n < 0x1_0000_0000_0000_0000
  type Uint32 = n: nat | n < 0x1_0000_0000

  /** What a payload says. */
  datatype Payload =
    | ItemAAD(namespaceID: Bytes, itemID: Bytes, version: Uint64)
    | Login(challenge: Bytes, kind: string, keyID: Bytes, authKey: Bytes, wrapKey: Bytes)
    | Refresh(challenge: Bytes, kind: string, keyID: Bytes)
    | Sensitive(challenge: Bytes, action: string, kind: string, keyID: Bytes, fields: Bytes)
    | JoinRequest(kind: string, namespaceID: Bytes, inviteID: Bytes, originHash: Bytes, keyID: Bytes, authKey: Bytes,
        wrapKey: Bytes, expiresAt: Uint64)

  function KindCode(kind: string): Option<Byte> {
    if kind == "keystore" then Some(1) else None
  }

  function SensitiveActionCode(action: string): Option<Byte> {
    if action == "revoke-all-tokens" then Some(1)
    else if action == "create-namespace-invite" then Some(2)
    else None
  }

  /** The inputs the builders accept. */
  predicate Valid(p: Payload) {
    match p
    case ItemAAD(ns, item, _) => |ns| == NAMESPACE_ID_LENGTH && |item| == ITEM_ID_LENGTH
    case Login(ch, kind, key, auth, wrap) =>
      |ch| == CHALLENGE_LENGTH && |key| == KEY_ID_LENGTH && |auth| == PUBLIC_KEY_LENGTH && |wrap| == PUBLIC_KEY_LENGTH
          && KindCode(kind).Some?
    case Refresh(ch, kind, key) => |ch| == CHALLENGE_LENGTH && |key| == KEY_ID_LENGTH && KindCode(kind).Some?
    case Sensitive(ch, action, kind, key, _) =>
      |ch| == CHALLENGE_LENGTH && |key| == KEY_ID_LENGTH && SensitiveActionCode(action).Some? && KindCode(kind).Some?
    case JoinRequest(kind, ns, invite, origin, key, auth, wrap, _) =>
      && |ns| == NAMESPACE_ID_LENGTH && |invite| == INVITE_ID_LENGTH && |origin| == HASH_LENGTH
          && |key| == KEY_ID_LENGTH
      && |auth| == PUBLIC_KEY_LENGTH && |wrap| == PUBLIC_KEY_LENGTH && KindCode(kind).Some?
  }

  function Fixed64(n: Uint64): (b: Bytes)
    ensures |b| == 8 && Weight8(b) == n
  {
    Pow64();
    BigEndianWeights(n);
    BigEndian(n, 8)
  }

  function Fixed32(n: Uint32): (b: Bytes)
    ensures |b| == 4 && Weight4(b) == n
  {
    assert Pow256(4) == 0x1_0000_0000;
    BigEndianWeights(n);
    BigEndian(n, 4)
  }

  lemma Pow64()
    ensures Pow256(8) == 0x1_0000_0000_0000_0000
  {
    assert Pow256(4) == 0x1_0000_0000;
    assert Pow256(8) == 0x1_0000_0000 * Pow256(4);
  }

  function ItemAADText(namespaceID: Bytes, itemID: Bytes, version: Uint64): Bytes {
    ITEM_AAD_PREFIX + [1] + namespaceID + itemID + Fixed64(version)
  }

  /** The canonical bytes, field by field. */
  function Canonical(p: Payload): Bytes
    requires Valid(p)
  {
    match p
    case ItemAAD(ns, item, version) => ItemAADText(ns, item, version)
    case Login(ch, kind, key, auth, wrap) => INTENT_PREFIX + [1, 1] + ch + [KindCode(kind).value] + key + auth + wrap
    case Refresh(ch, kind, key) => INTENT_PREFIX + [1, 2] + ch + [KindCode(kind).value] + key
    case Sensitive(ch, action, kind, key, fields) =>
      INTENT_PREFIX + [1, 3, SensitiveActionCode(action).value] + ch + [KindCode(kind).value] + key + fields
    case JoinRequest(kind, ns, invite, origin, key, auth, wrap, expires) =>
      JOIN_REQUEST_PREFIX + [1] + ns + invite + origin + [KindCode(kind).value] + key + auth + wrap + Fixed64(expires)
  }

  /** An intent of `size` bytes begins with the prefix and these two bytes. */
  predicate IntentHead(b: Bytes, size: nat, marks: Bytes) {
    |b| == size >= 19 && b[..17] == Ascii("bitboxsync-intent") && b[17..19] == marks
  }

  /** `BuildItemAADFromBytes`, for identifiers of any length. */
  method BuildItemAADFromBytes(namespaceID: Bytes, itemID: Bytes, version: Uint64) returns (buf: Bytes)
    ensures buf == ItemAADText(namespaceID, itemID, version)
    ensures var n := 20 + |namespaceID|;
      && |buf| == n + |itemID| + 8
      && buf[..19] == Ascii("bitboxsync-item-aad") && buf[19] == 1 && buf[20..n] == namespaceID
      && buf[n..n + |itemID|] == itemID && Weight8(buf[n + |itemID|..]) == version
  {
    buf := ITEM_AAD_PREFIX;
    buf := buf + [1];
    buf := buf + namespaceID;
    buf := buf + itemID;
    ghost var before := buf;
    buf := buf + Fixed64(version);
    assert buf[|before|..] == Fixed64(version);
  }

  method LoginIntent(challenge: Bytes, kind: string, keyID: Bytes, authKey: Bytes, wrapKey: Bytes)
    returns (r: Option<Bytes>)
    ensures r == var p := Login(challenge, kind, keyID, authKey, wrapKey); if Valid(p) then Some(Canonical(p)) else None
    ensures r.Some? <==>
      |challenge| == 32 && kind == "keystore" && |keyID| == 32 && |authKey| == 32 && |wrapKey| == 32
    ensures r.Some? ==>
      && IntentHead(r.value, 148, [1, 1]) && r.value[19..51] == challenge && r.value[51] == 1
      && r.value[52..84] == keyID && r.value[84..116] == authKey && r.value[116..148] == wrapKey
  {
    if |challenge| != CHALLENGE_LENGTH || |keyID| != KEY_ID_LENGTH || |authKey| != PUBLIC_KEY_LENGTH
        || |wrapKey| != PUBLIC_KEY_LENGTH {
      return None;
    }
    var code := KindCode(kind);
    if code.None? {
      return None;
    }
    var buf := INTENT_PREFIX;
    buf := buf + [1, 1];
    buf := buf + challenge;
    buf := buf + [code.value];
    buf := buf + keyID;
    buf := buf + authKey;
    buf := buf + wrapKey;
    r := Some(buf);
  }

  method RefreshIntent(challenge: Bytes, kind: string, keyID: Bytes) returns (r: Option<Bytes>)
    ensures r == var p := Refresh(challenge, kind, keyID); if Valid(p) then Some(Canonical(p)) else None
    ensures r.Some? <==> |challenge| == 32 && kind == "keystore" && |keyID| == 32
    ensures r.Some? ==>
      IntentHead(r.value, 84, [1, 2]) && r.value[19..51] == challenge && r.value[51] == 1 && r.value[52..84] == keyID
  {
    if |challenge| != CHALLENGE_LENGTH || |keyID| != KEY_ID_LENGTH {
      return None;
    }
    var code := KindCode(kind);
    if code.None? {
      return None;
    }
    var buf := INTENT_PREFIX;
    buf := buf + [1, 2];
    buf := buf + challenge;
    buf := buf + [code.value];
    buf := buf + keyID;
    r := Some(buf);
  }

  method SensitiveActionIntent(challenge: Bytes, action: string, kind: string, keyID: Bytes, fields: Bytes)
    returns (r: Option<Bytes>)
    ensures var p := Sensitive(challenge, action, kind, keyID, fields);
            r == if Valid(p) then Some(Canonical(p)) else None
    ensures r.Some? <==>
      && |challenge| == 32 && kind == "keystore" && |keyID| == 32
      && (action == "revoke-all-tokens" || action == "create-namespace-invite")
    ensures r.Some? ==>
      && IntentHead(r.value, 85 + |fields|, [1, 3]) && r.value[19] == (if action == "revoke-all-tokens" then 1 else 2)
      && r.value[20..52] == challenge && r.value[52] == 1 && r.value[53..85] == keyID && r.value[85..] == fields
  {
    if |challenge| != CHALLENGE_LENGTH || |keyID| != KEY_ID_LENGTH {
      return None;
    }
    var actionCode := SensitiveActionCode(action);
    if actionCode.None? {
      return None;
    }
    var code := KindCode(kind);
    if code.None? {
      return None;
    }
    var buf := INTENT_PREFIX;
    buf := buf + [1, 3, actionCode.value];
    buf := buf + challenge;
    buf := buf + [code.value];
    buf := buf + keyID;
    buf := buf + fields;
    r := Some(buf);
  }

  method JoinRequestPayload(kind: string, namespaceID: Bytes, inviteID: Bytes, originHash: Bytes, keyID: Bytes,
          authKey: Bytes, wrapKey: Bytes, expiresAt: Uint64)
    returns (r: Option<Bytes>)
    ensures var p := JoinRequest(kind, namespaceID, inviteID, originHash, keyID, authKey, wrapKey, expiresAt);
            r == if Valid(p) then Some(Canonical(p)) else None
    ensures r.Some? <==>
      && |namespaceID| == 16 && |inviteID| == 16 && |originHash| == 32 && kind == "keystore"
      && |keyID| == 32 && |authKey| == 32 && |wrapKey| == 32
    ensures r.Some? ==>
      && |r.value| == 193 && r.value[..23] == Ascii("bitboxsync-join-request") && r.value[23] == 1
      && r.value[24..40] == namespaceID && r.value[40..56] == inviteID && r.value[56..88] == originHash
      && r.value[88] == 1 && r.value[89..121] == keyID && r.value[121..153] == authKey && r.value[153..185] == wrapKey
      && Weight8(r.value[185..]) == expiresAt
  {
    if |namespaceID| != NAMESPACE_ID_LENGTH || |inviteID| != INVITE_ID_LENGTH || |originHash| != HASH_LENGTH {
      return None;
    }
    if |keyID| != KEY_ID_LENGTH || |authKey| != PUBLIC_KEY_LENGTH || |wrapKey| != PUBLIC_KEY_LENGTH {
      return None;
    }
    var code := KindCode(kind);
    if code.None? {
      return None;
    }
    var buf := JOIN_REQUEST_PREFIX;
    buf := buf + [1];
    buf := buf + namespaceID;
    buf := buf + inviteID;
    buf := buf + originHash;
    buf := buf + [code.value];
    ghost var head := buf;
    buf := buf + keyID;
    buf := buf + authKey;
    buf := buf + wrapKey;
    buf := buf + Fixed64(expiresAt);
    JoinRequestTail(head, keyID, authKey, wrapKey, Fixed64(expiresAt));
    r := Some(buf);
  }

  /** The first 89 bytes of a join request stay in place when the keys and the expiry follow. */
  lemma JoinRequestTail(head: Bytes, keyID: Bytes, authKey: Bytes, wrapKey: Bytes, expires: Bytes)
    requires |head| == 89 && |keyID| == 32 && |authKey| == 32 && |wrapKey| == 32 && |expires| == 8
    ensures var b := head + keyID + authKey + wrapKey + expires;
      && |b| == 193 && b[..23] == head[..23] && b[23] == head[23] && b[24..40] == head[24..40]
      && b[40..56] == head[40..56] && b[56..88] == head[56..88] && b[88] == head[88]
      && b[89..121] == keyID && b[121..153] == authKey && b[153..185] == wrapKey && b[185..] == expires
  {
    var tail := keyID + authKey + wrapKey + expires;
    var b := head + keyID + authKey + wrapKey + expires;
    assert b == head + tail;
    assert b[..89] == head && b[89..] == tail;
    assert forall i, j :: 0 <= i <= j <= 89 ==> b[i..j] == b[..89][i..j];
    assert b[89..121] == tail[..32] && b[121..153] == tail[32..64];
    assert b[153..185] == tail[64..96] && b[185..] == tail[96..];
  }

  // ---- every payload determines its inputs -----------------------------------------------------

  /** Neither two payloads of one kind nor payloads of different kinds ever coincide: a signature over
      one authorises nothing else. */
  lemma CanonicalIsInjective(p: Payload, q: Payload)
    requires Valid(p) && Valid(q) && Canonical(p) == Canonical(q)
    ensures p == q
  {
    KindsDiffer(p, q);
    match p
    case ItemAAD(_, _, _) => ItemAADsDiffer(p, q);
    case Login(_, _, _, _, _) => LoginsDiffer(p, q);
    case Refresh(_, _, _) => RefreshesDiffer(p, q);
    case Sensitive(_, _, _, _, _) => SensitivesDiffer(p, q);
    case JoinRequest(_, _, _, _, _, _, _, _) => JoinRequestsDiffer(p, q);
  }

  /** Bytes at fixed places tell the kinds apart: the prefixes differ there, and the intents by their code. */
  function KindMark(b: Bytes): (Byte, Byte, Byte)
    requires |b| > 18
  {
    (b[11], b[12], if b[12] == 110 then b[18] else 0)
  }

  lemma MarkOf(p: Payload)
    requires Valid(p)
    ensures |Canonical(p)| > 18
    ensures KindMark(Canonical(p)) == match p
      case ItemAAD(_, _, _) => (105, 116, 0)
      case Login(_, _, _, _, _) => (105, 110, 1)
      case Refresh(_, _, _) => (105, 110, 2)
      case Sensitive(_, _, _, _, _) => (105, 110, 3)
      case JoinRequest(_, _, _, _, _, _, _, _) => (106, 111, 0)
  {
  }

  lemma KindsDiffer(p: Payload, q: Payload)
    requires Valid(p) && Valid(q) && Canonical(p) == Canonical(q)
    ensures (p.ItemAAD? <==> q.ItemAAD?) && (p.Login? <==> q.Login?) && (p.Refresh? <==> q.Refresh?)
    ensures (p.Sensitive? <==> q.Sensitive?) && (p.JoinRequest? <==> q.JoinRequest?)
  {
    MarkOf(p);
    MarkOf(q);
  }

  lemma ItemAADsDiffer(p: Payload, q: Payload)
    requires Valid(p) && Valid(q) && p.ItemAAD? && q.ItemAAD? && Canonical(p) == Canonical(q)
    ensures p == q
  {
    var p0, q0 := ITEM_AAD_PREFIX + [1], ITEM_AAD_PREFIX + [1];
    var p1, q1 := p0 + p.namespaceID, q0 + q.namespaceID;
    var p2, q2 := p1 + p.itemID, q1 + q.itemID;
    SplitAt(p2, Fixed64(p.version), q2, Fixed64(q.version));
    SplitAt(p1, p.itemID, q1, q.itemID);
    SplitAt(p0, p.namespaceID, q0, q.namespaceID);
  }

  lemma LoginsDiffer(p: Payload, q: Payload)
    requires Valid(p) && Valid(q) && p.Login? && q.Login? && Canonical(p) == Canonical(q)
    ensures p == q
  {
    var p0, q0 := INTENT_PREFIX + [1, 1], INTENT_PREFIX + [1, 1];
    var p1, q1 := p0 + p.challenge, q0 + q.challenge;
    var p2, q2 := p1 + [KindCode(p.kind).value], q1 + [KindCode(q.kind).value];
    var p3, q3 := p2 + p.keyID, q2 + q.keyID;
    var p4, q4 := p3 + p.authKey, q3 + q.authKey;
    SplitAt(p4, p.wrapKey, q4, q.wrapKey);
    SplitAt(p3, p.authKey, q3, q.authKey);
    SplitAt(p2, p.keyID, q2, q.keyID);
    SplitAt(p1, [KindCode(p.kind).value], q1, [KindCode(q.kind).value]);
    SplitAt(p0, p.challenge, q0, q.challenge);
  }

  lemma RefreshesDiffer(p: Payload, q: Payload)
    requires Valid(p) && Valid(q) && p.Refresh? && q.Refresh? && Canonical(p) == Canonical(q)
    ensures p == q
  {
    var p0, q0 := INTENT_PREFIX + [1, 2], INTENT_PREFIX + [1, 2];
    var p1, q1 := p0 + p.challenge, q0 + q.challenge;
    var p2, q2 := p1 + [KindCode(p.kind).value], q1 + [KindCode(q.kind).value];
    SplitAt(p2, p.keyID, q2, q.keyID);
    SplitAt(p1, [KindCode(p.kind).value], q1, [KindCode(q.kind).value]);
    SplitAt(p0, p.challenge, q0, q.challenge);
  }

  lemma SensitivesDiffer(p: Payload, q: Payload)
    requires Valid(p) && Valid(q) && p.Sensitive? && q.Sensitive? && Canonical(p) == Canonical(q)
    ensures p == q
  {
    var p0, q0 := INTENT_PREFIX + [1, 3, SensitiveActionCode(p.action).value], INTENT_PREFIX + [1, 3,
        SensitiveActionCode(q.action).value];
    var p1, q1 := p0 + p.challenge, q0 + q.challenge;
    var p2, q2 := p1 + [KindCode(p.kind).value], q1 + [KindCode(q.kind).value];
    var p3, q3 := p2 + p.keyID, q2 + q.keyID;
    SplitAt(p3, p.fields, q3, q.fields);
    SplitAt(p2, p.keyID, q2, q.keyID);
    SplitAt(p1, [KindCode(p.kind).value], q1, [KindCode(q.kind).value]);
    SplitAt(p0, p.challenge, q0, q.challenge);
    SplitAt(INTENT_PREFIX, [1, 3, SensitiveActionCode(p.action).value], INTENT_PREFIX,
        [1, 3, SensitiveActionCode(q.action).value]);
    assert [1, 3, SensitiveActionCode(p.action).value][2] == [1, 3, SensitiveActionCode(q.action).value][2];
  }

  lemma JoinRequestsDiffer(p: Payload, q: Payload)
    requires Valid(p) && Valid(q) && p.JoinRequest? && q.JoinRequest? && Canonical(p) == Canonical(q)
    ensures p == q
  {
    var p0, q0 := JOIN_REQUEST_PREFIX + [1], JOIN_REQUEST_PREFIX + [1];
    var p1, q1 := p0 + p.namespaceID, q0 + q.namespaceID;
    var p2, q2 := p1 + p.inviteID, q1 + q.inviteID;
    var p3, q3 := p2 + p.originHash, q2 + q.originHash;
    var p4, q4 := p3 + [KindCode(p.kind).value], q3 + [KindCode(q.kind).value];
    var p5, q5 := p4 + p.keyID, q4 + q.keyID;
    var p6, q6 := p5 + p.authKey, q5 + q.authKey;
    var p7, q7 := p6 + p.wrapKey, q6 + q.wrapKey;
    SplitAt(p7, Fixed64(p.expiresAt), q7, Fixed64(q.expiresAt));
    SplitAt(p6, p.wrapKey, q6, q.wrapKey);
    SplitAt(p5, p.authKey, q5, q.authKey);
    SplitAt(p4, p.keyID, q4, q.keyID);
    SplitAt(p3, [KindCode(p.kind).value], q3, [KindCode(q.kind).value]);
    SplitAt(p2, p.originHash, q2, q.originHash);
    SplitAt(p1, p.inviteID, q1, q.inviteID);
    SplitAt(p0, p.namespaceID, q0, q.namespaceID);
  }

  /** Exactly what item data of identifiers of any length determines: the version and the identifiers run
      together. The length checks before `BuildItemAADFromBytes` make that enough. */
  lemma ItemAADExactly(n1: Bytes, i1: Bytes, v1: Uint64, n2: Bytes, i2: Bytes, v2: Uint64)
    ensures ItemAADText(n1, i1, v1) == ItemAADText(n2, i2, v2) <==> n1 + i1 == n2 + i2 && v1 == v2
  {
    assert ItemAADText(n1, i1, v1) == (ITEM_AAD_PREFIX + [1]) + (n1 + i1) + Fixed64(v1);
    assert ItemAADText(n2, i2, v2) == (ITEM_AAD_PREFIX + [1]) + (n2 + i2) + Fixed64(v2);
    if ItemAADText(n1, i1, v1) == ItemAADText(n2, i2, v2) {
      SplitAt((ITEM_AAD_PREFIX + [1]) + (n1 + i1), Fixed64(v1), (ITEM_AAD_PREFIX + [1]) + (n2 + i2), Fixed64(v2));
      SplitAt(ITEM_AAD_PREFIX + [1], n1 + i1, ITEM_AAD_PREFIX + [1], n2 + i2);
    }
  }

  /** `CreateNamespaceInviteActionFields`. */
  function InviteFields(namespaceID: Bytes, inviteID: Bytes, secretHash: Bytes, expiresAt: Uint64,
          maxAccepted: Uint32): (r: Option<Bytes>)
    ensures r.Some? <==> |namespaceID| == 16 && |inviteID| == 16 && |secretHash| == 32
    ensures r.Some? ==>
      && |r.value| == 76 && r.value[..16] == namespaceID && r.value[16..32] == inviteID && r.value[32..64] == secretHash
      && Weight8(r.value[64..72]) == expiresAt && Weight4(r.value[72..]) == maxAccepted
  {
    if |namespaceID| != NAMESPACE_ID_LENGTH || |inviteID| != INVITE_ID_LENGTH || |secretHash| != HASH_LENGTH then None
    else
      var ids := namespaceID + inviteID + secretHash;
      var b := ids + Fixed64(expiresAt) + Fixed32(maxAccepted);
      assert b[64..72] == Fixed64(expiresAt) && b[72..] == Fixed32(maxAccepted);
      Some(b)
  }

  /** The action fields determine their inputs too. */
  lemma InviteFieldsAreInjective(n1: Bytes, i1: Bytes, s1: Bytes, e1: Uint64, m1: Uint32, n2: Bytes, i2: Bytes,
          s2: Bytes, e2: Uint64, m2: Uint32)
    requires InviteFields(n1, i1, s1, e1, m1) == InviteFields(n2, i2, s2, e2, m2)
        && InviteFields(n1, i1, s1, e1, m1).Some?
    ensures n1 == n2 && i1 == i2 && s1 == s2 && e1 == e2 && m1 == m2
  {
    assert Weight8(Fixed64(e1)) == e1 && Weight4(Fixed32(m1)) == m1;
    SplitAt(n1 + i1 + s1 + Fixed64(e1), Fixed32(m1), n2 + i2 + s2 + Fixed64(e2), Fixed32(m2));
    SplitAt(n1 + i1 + s1, Fixed64(e1), n2 + i2 + s2, Fixed64(e2));
    SplitAt(n1 + i1, s1, n2 + i2, s2);
    SplitAt(n1, i1, n2, i2);
  }
}
