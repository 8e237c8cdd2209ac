/**
 * The dialog that adds one member to an existing group (`AddMembersDialog`).
 * The user lookup and the membership insert are replaced by their outcomes;
 * `onMemberAdded` calls are counted.
 */
module AddMembersDialog {
  import opened Wrappers
  import opened Text
  import opened Phone
  import opened Domain

  const NotFoundError := "No user found with this phone number"
  const AlreadyMemberError := "This user is already a member of the chat"
  const AddFailedError := "Failed to add member. Please try again."
  const AddedSuffix := " has been added to the chat"

  /** The success banner for a user who was added: the name, then the fixed suffix. */
  function AddedMessage(user: User): (m: string)
    ensures StartsWith(m, user.fullName)
    ensures |m| == |user.fullName| + |AddedSuffix|
    ensures m[|user.fullName|..] == AddedSuffix
  {
    StartsWithConcat(user.fullName, AddedSuffix);
    user.fullName + AddedSuffix
  }

  class AddMembersDialog {
    const chatId: string
    var phoneNumber: string
    var error: string
    var success: string
    var loading: bool
    /** How many times the parent's `onMemberAdded` callback has been called. */
    var memberAddedCalls: nat

    /** The field only ever holds what the sanitiser lets through. */
    ghost predicate Valid()
      reads this
    {
      AllDigits(phoneNumber) && |phoneNumber| <= MaxDigits
    }

    constructor (chatId: string)
      ensures Valid()
      ensures this.chatId == chatId
      ensures phoneNumber == "" && error == "" && success == "" && !loading && memberAddedCalls == 0
    {
      this.chatId := chatId;
      phoneNumber := "";
      error := "";
      success := "";
      loading := false;
      memberAddedCalls := 0;
    }

    /** The Add Member button is enabled exactly for a valid ten-digit number while nothing is loading. */
    function CanAdd(): (enabled: bool)
      requires Valid()
      reads this
      ensures enabled <==> IsTenDigits(phoneNumber) && !loading
    {
      |phoneNumber| == MaxDigits && !loading
    }

    /** The phone field's `onChange`. */
    method SetPhoneNumber(raw: string)
      modifies this
      ensures Valid()
      ensures phoneNumber == Sanitize(raw) && error == ""
      ensures CanAdd() <==> |Digits(raw)| >= MaxDigits && !loading
      ensures success == old(success) && loading == old(loading) && memberAddedCalls == old(memberAddedCalls)
    {
      phoneNumber := Sanitize(raw);
      error := "";
    }

    /**
     * `handleAddMember`: looks the number up under `+91`; a missing user or one
     * already in `currentMembers` is refused with no insert; otherwise one
     * membership row is inserted, and only a successful insert reports success,
     * clears the field and calls `onMemberAdded` once. `loading` ends false on
     * every path.
     */
    method HandleAddMember(currentMembers: seq<User>, found: Option<User>, insertOk: bool)
      returns (searched: string, insert: Option<Membership>)
      requires Valid()
      modifies this
      ensures Valid()
      ensures searched == Normalize(old(phoneNumber))
      ensures !loading
      ensures found.None? ==>
        && insert == None && error == NotFoundError && success == ""
        && phoneNumber == old(phoneNumber) && memberAddedCalls == old(memberAddedCalls)
      ensures found.Some? && HasUserId(currentMembers, found.value.id) ==>
        && insert == None && error == AlreadyMemberError && success == ""
        && phoneNumber == old(phoneNumber) && memberAddedCalls == old(memberAddedCalls)
      ensures found.Some? && !HasUserId(currentMembers, found.value.id) ==>
        insert == Some(Membership(chatId, found.value.id))
      ensures found.Some? && !HasUserId(currentMembers, found.value.id) && insertOk ==>
        && error == "" && success == AddedMessage(found.value)
        && phoneNumber == "" && memberAddedCalls == old(memberAddedCalls) + 1
      ensures found.Some? && !HasUserId(currentMembers, found.value.id) && !insertOk ==>
        && error == AddFailedError && success == ""
        && phoneNumber == old(phoneNumber) && memberAddedCalls == old(memberAddedCalls)
    {
      error := "";
      success := "";
      loading := true;
      searched := Normalize(phoneNumber);
      insert := None;
      if found.None? {
        error := NotFoundError;
      } else if HasUserId(currentMembers, found.value.id) {
        error := AlreadyMemberError;
      } else {
        insert := Some(Membership(chatId, found.value.id));
        if insertOk {
          success := AddedMessage(found.value);
          phoneNumber := "";
          memberAddedCalls := memberAddedCalls + 1;
        } else {
          error := AddFailedError;
        }
      }
      loading := false;
    }

    /** The two-second timer after a success clears the banner. */
    method ClearSuccess()
      requires Valid()
      modifies this
      ensures Valid()
      ensures success == ""
      ensures phoneNumber == old(phoneNumber) && error == old(error) && loading == old(loading)
      ensures memberAddedCalls == old(memberAddedCalls)
    {
      success := "";
    }
  }
}
