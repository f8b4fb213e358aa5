/** What one get_info call to the daemon can come back with. */
module Upstream {

  /** The three fields the decoder fills from the get_info reply. A field the
      reply leaves out keeps the zero value false. */
  datatype MonerodInfo = MonerodInfo(offline: bool, busySyncing: bool, synced: bool)

  /** One boolean member of the reply's JSON object, in the order it appears. */
  datatype Member = Member(key: string, value: bool)

  const OfflineKey: string := "offline"
  const BusySyncingKey: string := "busy_syncing"
  const SyncedKey: string := "synchronized"

  /** The record before any member has been read. */
  const ZeroInfo: MonerodInfo := MonerodInfo(false, false, false)

  /** True when key occurs in ms and its last occurrence carries true. */
  ghost predicate LastIsTrue(ms: seq<Member>, key: string) {
    exists i :: 0 <= i < |ms| && ms[i] == Member(key, true) && NoLaterKey(ms, key, i)
  }

  /** No member after position i is named key. */
  ghost predicate NoLaterKey(ms: seq<Member>, key: string, i: nat) {
    forall j :: i < j < |ms| ==> ms[j].key != key
  }

  /** Stores one member into the record; members with other names are ignored. */
  function Assign(info: MonerodInfo, m: Member): (r: MonerodInfo)
    ensures r.offline == if m.key == OfflineKey then m.value else info.offline
    ensures r.busySyncing == if m.key == BusySyncingKey then m.value else info.busySyncing
    ensures r.synced == if m.key == SyncedKey then m.value else info.synced
  {
    if m.key == OfflineKey then info.(offline := m.value)
    else if m.key == BusySyncingKey then info.(busySyncing := m.value)
    else if m.key == SyncedKey then info.(synced := m.value)
    else info
  }

  /** Decodes the members of a well-formed reply object into the record,
      reading left to right from the all-false record. */
  function DecodeMembers(ms: seq<Member>): MonerodInfo
    decreases |ms|
  {
    if ms == [] then ZeroInfo
    else Assign(DecodeMembers(ms[..|ms| - 1]), ms[|ms| - 1])
  }

  /** Appending one member changes whether key's last value is true only when
      the member is named key. */
  lemma {:induction false} LastIsTrueSnoc(ms: seq<Member>, m: Member, key: string)
    ensures LastIsTrue(ms + [m], key) <==> if m.key == key then m.value else LastIsTrue(ms, key)
  {
    var ms' := ms + [m];
    if m.key == key {
      if m.value {
        assert ms'[|ms|] == Member(key, true) && NoLaterKey(ms', key, |ms|);
      }
      if LastIsTrue(ms', key) {
        var i :| 0 <= i < |ms'| && ms'[i] == Member(key, true) && NoLaterKey(ms', key, i);
        assert ms'[|ms|].key == key;
        assert i == |ms|;
      }
    } else {
      if LastIsTrue(ms, key) {
        var i :| 0 <= i < |ms| && ms[i] == Member(key, true) && NoLaterKey(ms, key, i);
        assert ms'[i] == Member(key, true) && NoLaterKey(ms', key, i);
      }
      if LastIsTrue(ms', key) {
        var i :| 0 <= i < |ms'| && ms'[i] == Member(key, true) && NoLaterKey(ms', key, i);
        assert i < |ms|;
        forall j | i < j < |ms|
          ensures ms[j].key != key
        {
          assert ms[j] == ms'[j];
        }
        assert ms[i] == Member(key, true) && NoLaterKey(ms, key, i);
      }
    }
  }

  /** Each field of the decoded record is true exactly when the reply's last
      member of that name says true; a field the reply omits is false. */
  lemma {:induction false} DecodeMembersFields(ms: seq<Member>)
    ensures DecodeMembers(ms).offline <==> LastIsTrue(ms, OfflineKey)
    ensures DecodeMembers(ms).busySyncing <==> LastIsTrue(ms, BusySyncingKey)
    ensures DecodeMembers(ms).synced <==> LastIsTrue(ms, SyncedKey)
    decreases |ms|
  {
    if ms != [] {
      var init, last := ms[..|ms| - 1], ms[|ms| - 1];
      assert ms == init + [last];
      DecodeMembersFields(init);
      LastIsTrueSnoc(init, last, OfflineKey);
      LastIsTrueSnoc(init, last, BusySyncingKey);
      LastIsTrueSnoc(init, last, SyncedKey);
    }
  }

  /** The empty object `{}` decodes to the all-false record. */
  lemma EmptyObjectDecodesToZero()
    ensures DecodeMembers([]) == MonerodInfo(false, false, false)
  {
  }

  /** Result of decoding a reply body: an error, or the filled record. */
  datatype Decoding = DecodeError | Decoded(info: MonerodInfo)

  /** The outcome of one GET of the daemon's get_info endpoint: the request
      failed, or it was answered with a status code and a body. */
  datatype Outcome = TransportError | Answered(statusCode: int, body: Decoding)

  const StatusOK: int := 200
}
