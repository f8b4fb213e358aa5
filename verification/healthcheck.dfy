/** The classifier that turns one get_info outcome into a health value. */
module HealthCheck {
  import opened Status
  import opened Upstream

  /** The value serialised as the health-check reply. */
  datatype HealthCheckResponse = HealthCheckResponse(monerod: MoneroDStatus)

  /** Classifies one outcome: a failed request, a non-200 answer or an
      undecodable body is offline; a decoded body that is busy syncing or not
      synchronized is syncing; otherwise its offline flag decides. */
  function GetMoneroDStatus(o: Outcome): (r: HealthCheckResponse)
    ensures r.monerod == Online <==>
      o.Answered? && o.statusCode == StatusOK && o.body.Decoded?
      && !o.body.info.busySyncing && o.body.info.synced && !o.body.info.offline
    ensures r.monerod == Syncing <==>
      o.Answered? && o.statusCode == StatusOK && o.body.Decoded?
      && (o.body.info.busySyncing || !o.body.info.synced)
  {
    match o
    case TransportError =>
      HealthCheckResponse(Offline)
    case Answered(code, body) =>
      if code != StatusOK then
        HealthCheckResponse(Offline)
      else
        match body
        case DecodeError =>
          HealthCheckResponse(Offline)
        case Decoded(info) =>
          if info.busySyncing || !info.synced then
            HealthCheckResponse(Syncing)
          else if info.offline then
            HealthCheckResponse(Offline)
          else
            HealthCheckResponse(Online)
  }

  /** Shorthand for the status the classifier reports. */
  function Classify(o: Outcome): MoneroDStatus {
    GetMoneroDStatus(o).monerod
  }

  /** A failed GET is reported offline. */
  lemma TransportErrorIsOffline()
    ensures Classify(TransportError) == Offline
  {
  }

  /** Any answer other than 200 is reported offline, whatever its body. */
  lemma NonOkIsOffline(code: int, body: Decoding)
    requires code != StatusOK
    ensures Classify(Answered(code, body)) == Offline
  {
  }

  /** A 200 answer whose body does not decode is reported offline. */
  lemma DecodeErrorIsOffline()
    ensures Classify(Answered(StatusOK, DecodeError)) == Offline
  {
  }

  /** Busy syncing wins over every other flag. */
  lemma BusySyncingIsSyncing(offline: bool, synced: bool)
    ensures Classify(Answered(StatusOK, Decoded(MonerodInfo(offline, true, synced)))) == Syncing
  {
  }

  /** Not being synchronized is syncing, whatever the offline flag says. */
  lemma NotSyncedIsSyncing(offline: bool, busySyncing: bool)
    ensures Classify(Answered(StatusOK, Decoded(MonerodInfo(offline, busySyncing, false)))) == Syncing
  {
  }

  /** A synchronized, idle daemon that calls itself offline is offline. */
  lemma SyncedButOfflineIsOffline()
    ensures Classify(Answered(StatusOK, Decoded(MonerodInfo(true, false, true)))) == Offline
  {
  }

  /** The offline flag only matters once the sync checks have passed: when
      the daemon is syncing, flipping it changes nothing. */
  lemma SyncCheckPrecedesOfflineFlag(info: MonerodInfo)
    requires info.busySyncing || !info.synced
    ensures Classify(Answered(StatusOK, Decoded(info.(offline := true))))
         == Classify(Answered(StatusOK, Decoded(info.(offline := false))))
         == Syncing
  {
  }

  /** A 200 answer with body `{}` (or `null`, which the decoder also leaves
      all-false) has every field false and so reports syncing. */
  lemma EmptyReplyIsSyncing()
    ensures Classify(Answered(StatusOK, Decoded(DecodeMembers([])))) == Syncing
  {
  }

  /** Offline is reported exactly for a failed request, a non-200 answer, an
      undecodable body, or an idle synchronized daemon that says it is offline. */
  lemma OfflineExactly(o: Outcome)
    ensures Classify(o) == Offline <==>
      || o.TransportError?
      || o.statusCode != StatusOK
      || o.body.DecodeError?
      || (!o.body.info.busySyncing && o.body.info.synced && o.body.info.offline)
  {
  }

  /** The string a consumer receives names the outcome: "online" exactly for a
      healthy synchronized daemon, "Syning" exactly for a syncing one, and
      "offline" for everything else. */
  lemma WireOfOutcome(o: Outcome)
    ensures Wire(Classify(o)) == "online" <==>
      o.Answered? && o.statusCode == StatusOK && o.body.Decoded?
      && !o.body.info.busySyncing && o.body.info.synced && !o.body.info.offline
    ensures Wire(Classify(o)) == "Syning" <==>
      o.Answered? && o.statusCode == StatusOK && o.body.Decoded?
      && (o.body.info.busySyncing || !o.body.info.synced)
    ensures Wire(Classify(o)) == "offline" <==>
      || o.TransportError?
      || o.statusCode != StatusOK
      || o.body.DecodeError?
      || (!o.body.info.busySyncing && o.body.info.synced && o.body.info.offline)
  {
  }

  /** A 200 reply with no "synchronized" member leaves that field false and is
      therefore syncing, whatever else it says. */
  lemma NoSyncedMemberIsSyncing(ms: seq<Member>)
    requires forall i :: 0 <= i < |ms| ==> ms[i].key != SyncedKey
    ensures Classify(Answered(StatusOK, Decoded(DecodeMembers(ms)))) == Syncing
  {
    DecodeMembersFields(ms);
  }

  /** A 200 reply is online exactly when its last "busy_syncing" member is not
      true, its last "synchronized" member is true and its last "offline"
      member is not true. */
  lemma DecodedReplyOnlineExactly(ms: seq<Member>)
    ensures Classify(Answered(StatusOK, Decoded(DecodeMembers(ms)))) == Online <==>
      !LastIsTrue(ms, BusySyncingKey) && LastIsTrue(ms, SyncedKey) && !LastIsTrue(ms, OfflineKey)
  {
    DecodeMembersFields(ms);
  }
}
