/** The notification enumeration and the relay snapshot record
    (torweather/schemas.py). */
module Schemas {

  datatype Option<+T> = None | Some(value: T)

  /** The members of the notification enumeration. The enum body declares
      twelve names, but only the two that are assigned a value become
      members; the others are bare annotations. */
  datatype Notif = NodeDown | OutdatedVer {

    /** The member name: the key of the kind's sub-document in a stored
        subscription and the name the evaluator queries. */
    function Name(): string {
      match this
      case NodeDown => "NODE_DOWN"
      case OutdatedVer => "OUTDATED_VER"
    }

    /** The e-mail subject the member's value carries. */
    function Subject(): string {
      match this
      case NodeDown => "Node down"
      case OutdatedVer => "Node out of date"
    }

    /** The message template file the member's value carries. */
    function Template(): string {
      match this
      case NodeDown => "node_down.txt"
      case OutdatedVer => "outdated_version.txt"
    }
  }

  /** Each member's value is its own: no two members share a subject or a
      template, and every template is a text file. */
  lemma ValuesIdentifyKinds()
    ensures forall a: Notif, b: Notif :: a.Subject() == b.Subject() ==> a == b
    ensures forall a: Notif, b: Notif :: a.Template() == b.Template() ==> a == b
    ensures forall k: Notif :: |k.Template()| > 4 && k.Template()[|k.Template()| - 4..] == ".txt"
  {
  }

  /** Every name written in the enum body, in order of declaration. */
  const DeclaredNames: seq<string> := [
    "NODE_DOWN", "SECURITY_VULNERABILITY", "END_OF_LIFE_VER", "OUTDATED_VER",
    "DNS_FAILURE", "FLAG_LOST", "DETECT_ISSUES", "SUGGESTIONS", "TOP_LIST",
    "DATA", "REQUIREMENTS", "OPERATOR_EVENTS"
  ]

  /** `getattr(Notif, name)`: the member with that name, or None where the
      lookup raises AttributeError. It is the inverse of Name. */
  function NotifNamed(name: string): (r: Option<Notif>)
    ensures r.Some? ==> r.value.Name() == name
    ensures r.None? ==> forall k: Notif :: k.Name() != name
  {
    if name == "NODE_DOWN" then Some(NodeDown)
    else if name == "OUTDATED_VER" then Some(OutdatedVer)
    else None
  }

  /** Looking a member up by its own name gives the member back, so two
      members never share a name. */
  lemma NameRoundTrip(k: Notif)
    ensures NotifNamed(k.Name()) == Some(k)
  {
  }

  /** Of the twelve declared names exactly the first and the fourth
      (NODE_DOWN and OUTDATED_VER) resolve to members. */
  lemma OnlyAssignedNamesAreMembers()
    ensures |DeclaredNames| == 12
    ensures forall i :: 0 <= i < |DeclaredNames| ==>
              (NotifNamed(DeclaredNames[i]).Some? <==> i == 0 || i == 3)
  {
  }

  /** A health snapshot of one relay, with the ten fields requested from
      the details endpoint. Timestamps are whole seconds. */
  datatype RelayData = RelayData(
    nickname: string,
    fingerprint: string,
    lastSeen: int,
    running: bool,
    consensusWeight: int,
    lastRestarted: int,
    bandwidthRate: int,
    effectiveFamily: seq<string>,
    versionStatus: string,
    recommendedVersion: bool)

  /** The field list sent with every details request, one name per field
      of RelayData, in the same order. */
  const RequestedFields: seq<string> := [
    "nickname", "fingerprint", "last_seen", "running", "consensus_weight",
    "last_restarted", "bandwidth_rate", "effective_family", "version_status",
    "recommended_version"
  ]

  /** The request names ten distinct fields. */
  lemma RequestedFieldsDistinct()
    ensures |RequestedFields| == 10
    ensures forall i, j :: 0 <= i < j < |RequestedFields| ==> RequestedFields[i] != RequestedFields[j]
  {
  }
}
