/**
 * Option and Result wrappers used for the nullable values and the thrown
 * errors of the application.
 */
module Wrappers {
  datatype Option<+T> = None | Some(value: T)

  datatype Result<+T, +E> = Ok(value: T) | Err(error: E)
}

/**
 * The record and enum shapes of the application (types.ts). Strings are
 * `seq<char>`; JavaScript numbers used as timestamps and counters are `int`,
 * and so are the `pointsEarned` awards (the engagement handler leaves them
 * out; rows written elsewhere are taken to hold whole numbers).
 */
module Types {
  import opened Wrappers

  datatype UserRole = Regular | Admin | Dev

  datatype Tier = Silver | Gold | Platinum

  datatype NotificationType = EngagementReceived | SystemWarning | PowerHourStart | ReciprocationDue

  datatype LogStatus = Done | Pending

  /** The string value each tier carries in the source (it is what the CSV report prints). */
  function TierName(t: Tier): (s: string)
    ensures |s| > 0
  {
    match t
    case Silver => "Silver"
    case Gold => "Gold"
    case Platinum => "Platinum"
  }

  /** One fact of the engagement ledger. `pointsEarned` is optional in the source. */
  datatype EngagementLog = EngagementLog(
    id: string,
    viewerId: string,
    cardId: string,
    postId: string,
    status: LogStatus,
    pointsEarned: Option<int>,
    timestamp: int)

  datatype Party = Party(id: string, name: string, adminPassword: Option<string>, createdAt: int)

  datatype Folder = Folder(
    id: string,
    partyId: string,
    name: string,
    description: Option<string>,
    icon: Option<string>,
    createdBy: string)

  /** A post of a card. The source's `cardId` field is never set or read by the modelled code and is left out. */
  datatype Post = Post(id: string, url: string, sn: int)

  datatype Card = Card(
    id: string,
    userId: string,
    partyId: string,
    folderId: string,
    displayName: string,
    timestamp: int,
    tier: Tier,
    posts: seq<Post>,
    engagementPoints: int)

  datatype User = User(
    id: string,
    name: string,
    role: UserRole,
    tier: Tier,
    partyId: string,
    adminId: Option<string>)

  datatype Notification = Notification(
    id: string,
    recipientId: string,
    senderId: string,
    senderName: string,
    kind: NotificationType,
    message: string,
    timestamp: int,
    read: bool)

  datatype InstructionKind = Info | Warning | Mission

  datatype InstructionBox = InstructionBox(id: string, partyId: string, content: string, kind: InstructionKind, x: int, y: int)

  /** The reserved party scope of DEV identities. */
  const SystemPartyId: string := "SYSTEM"
}
