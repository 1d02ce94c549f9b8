/**
 * The records the core passes around: the stored `Lead` and `Comment` rows, the user
 * profile, referral earnings, and the request and response shapes of the HTTP layer.
 * Timestamps are natural numbers; a Go `*time.Time` that may be nil is an `Option<nat>`.
 * Reward amounts are `real` (the source uses float64; IEEE rounding is not modelled).
 */
module Models {
  import opened Wrappers

  /** The author id that marks a comment as written by a CRM manager. */
  const ManagerUserId: int := 228

  datatype Lead = Lead(
    id: int,
    userId: int,
    fio: string,
    address: string,
    statusId: int,
    phoneNumber: string,
    internet: bool,
    cleaning: bool,
    shipping: bool,
    createdAt: nat,
    completedAt: Option<nat>,
    paymentAt: Option<nat>,
    rewardInternet: real,
    rewardCleaning: real,
    rewardShipping: real)

  datatype Comment = Comment(id: int, leadId: int, userId: int, text: string, createdAt: nat)

  /** The user profile fields the core reads or copies. */
  datatype User = User(
    id: int,
    roles: seq<string>,
    referralCode: string,
    email: string,
    name: string,
    phoneNumber: string,
    city: string,
    telegram: string)

  /** An active referral of a user, with what it earned. */
  datatype Referral = Referral(cost: real)

  datatype UserDTO = UserDTO(
    id: Option<int>,
    roles: seq<string>,
    referralCode: string,
    email: string,
    name: string,
    phoneNumber: string,
    city: string,
    telegram: string)

  datatype ReferralDTO = ReferralDTO(id: int, name: string, phoneNumber: string, city: string, active: bool)

  /** The body of a lead submission. */
  datatype CreateLeadDTO = CreateLeadDTO(
    name: string,
    phoneNumber: string,
    address: string,
    comment: string,
    rewardInternet: real,
    rewardCleaning: real,
    rewardShipping: real,
    isInternet: bool,
    isShipping: bool,
    isCleaning: bool)

  datatype CommentDTO = CommentDTO(id: int, manager: bool, text: string, createdAt: nat)

  datatype LeadDTO = LeadDTO(
    id: int,
    fio: string,
    address: string,
    statusId: int,
    phoneNumber: string,
    internet: bool,
    cleaning: bool,
    shipping: bool,
    comments: seq<CommentDTO>,
    rewardInternet: real,
    rewardCleaning: real,
    rewardShipping: real,
    createdAt: nat,
    completedAt: Option<nat>,
    paymentAt: Option<nat>)

  /** The listing filter of the HTTP layer; every field but the paging is optional. */
  datatype LeadFilterDTO = LeadFilterDTO(
    statusId: Option<int>,
    startDate: Option<nat>,
    endDate: Option<nat>,
    userId: Option<int>,
    limit: int,
    offset: int,
    isInternet: Option<bool>,
    isShipping: Option<bool>,
    isCleaning: Option<bool>,
    search: Option<string>)

  datatype AddCommentDTO = AddCommentDTO(idLead: int, comment: string)

  datatype UserStatistic = UserStatistic(
    startDate: Option<nat>,
    internet: real,
    cleaning: real,
    shipping: real,
    referrals: real,
    total: real)

  datatype NewPasswordDTO = NewPasswordDTO(oldPassword: string, newPassword: string)
}
