/** The enumerations and records the Python services and the frontend share. */
module Models {
  import opened Wrappers

  /** Kind of a Telegram dialog as stored with it. */
  datatype DialogType = DialogUser | DialogGroup | DialogChannel

  /** Kind of the peer a message comes from. */
  datatype PeerType = UserPeer | ChatPeer | ChannelPeer

  datatype ContactType = Phone | Email | TelegramUsername | TelegramId | ExternalPlatform | OtherContact

  /** One contact extracted from a vacancy message. */
  datatype Contact = Contact(kind: ContactType, value: string)

  datatype Decision = Approve | Dismiss

  /** The progress statuses, in the order of the kanban columns. */
  datatype ProgressStatus = New | ContactHr | Ignore | Interview | Reject | Offer

  datatype Seniority = Trainee | Junior | Middle | Senior | Lead

  /** A vacancy review as the agent stores it (one per message). */
  datatype VacancyReview = VacancyReview(
    id: int,
    messageId: int,
    decision: Decision,
    seniority: Option<Seniority>,
    contacts: seq<Contact>,
    position: string,
    description: string,
    requirements: Option<string>,
    salaryFrom: Option<int>,
    salaryTo: Option<int>,
    promptId: Option<int>,
    promptVersion: Option<int>)

  /** The progress record of an approved review. */
  datatype VacancyProgress = VacancyProgress(id: int, reviewId: int, status: ProgressStatus, comment: Option<string>)
}
