/** The renderer's user-details store: the profile form (nine text fields
    and a list of free key/value rows) with its loading, saving, dirty and
    error flags. It reads and writes the profile through the main process,
    which keeps it in the `user_details` and `user_additional_info`
    tables. */
module UserDetailsStore {
  import opened Common
  import UserDetailsRepo

  type InfoItem = UserDetailsRepo.InfoItem

  datatype Field =
    | FullName | Occupation | CompanyName | Role | Email | PhoneNumber | BusinessAddress | Website | Linkedin

  /** The form's text fields; an empty field is "". */
  datatype Profile = Profile(
    fullName: string, occupation: string, companyName: string, role: string, email: string,
    phoneNumber: string, businessAddress: string, website: string, linkedin: string)

  const EmptyProfile := Profile("", "", "", "", "", "", "", "", "")

  function Get(p: Profile, f: Field): string {
    match f
    case FullName => p.fullName
    case Occupation => p.occupation
    case CompanyName => p.companyName
    case Role => p.role
    case Email => p.email
    case PhoneNumber => p.phoneNumber
    case BusinessAddress => p.businessAddress
    case Website => p.website
    case Linkedin => p.linkedin
  }

  /** `set({[field]: value})` on the profile. */
  function With(p: Profile, f: Field, v: string): (r: Profile)
    ensures Get(r, f) == v
    ensures forall g :: g != f ==> Get(r, g) == Get(p, g)
  {
    match f
    case FullName => p.(fullName := v)
    case Occupation => p.(occupation := v)
    case CompanyName => p.(companyName := v)
    case Role => p.(role := v)
    case Email => p.(email := v)
    case PhoneNumber => p.(phoneNumber := v)
    case BusinessAddress => p.(businessAddress := v)
    case Website => p.(website := v)
    case Linkedin => p.(linkedin := v)
  }

  /** `x || undefined`. */
  function UndefinedIfEmpty(s: string): (r: Option<string>)
    ensures r.None? <==> s == ""
    ensures r.Some? ==> r.value == s
  {
    if s == "" then None else Some(s)
  }

  /** `x || ''`. */
  function EmptyIfNull(v: Option<string>): (s: string)
    ensures v.Some? ==> s == v.value
    ensures v.None? ==> s == ""
  {
    if v.Some? then v.value else ""
  }

  /** The details `saveDetails` sends: name and occupation as they are,
      every other empty field left out. */
  function ToInput(p: Profile): (d: UserDetailsRepo.DetailsInput)
    ensures d.fullName == p.fullName && d.occupation == p.occupation
    ensures d.companyName == UndefinedIfEmpty(p.companyName) && d.linkedin == UndefinedIfEmpty(p.linkedin)
  {
    UserDetailsRepo.DetailsInput(
      p.fullName, p.occupation, UndefinedIfEmpty(p.companyName), UndefinedIfEmpty(p.role),
      UndefinedIfEmpty(p.email), UndefinedIfEmpty(p.phoneNumber), UndefinedIfEmpty(p.businessAddress),
      UndefinedIfEmpty(p.website), UndefinedIfEmpty(p.linkedin))
  }

  /** The form fields `loadDetails` fills from stored details. */
  function FromDetails(d: UserDetailsRepo.Details): (p: Profile)
    ensures p.fullName == d.fullName && p.occupation == d.occupation
    ensures p.companyName == EmptyIfNull(d.companyName) && p.linkedin == EmptyIfNull(d.linkedin)
  {
    Profile(d.fullName, d.occupation, EmptyIfNull(d.companyName), EmptyIfNull(d.role), EmptyIfNull(d.email),
            EmptyIfNull(d.phoneNumber), EmptyIfNull(d.businessAddress), EmptyIfNull(d.website),
            EmptyIfNull(d.linkedin))
  }

  /** Saving the form and loading it back gives the same fields: the
      database's NULL for an empty field reads back as "". */
  lemma SaveThenLoad(p: Profile, existing: Option<UserDetailsRepo.Details>, userId: string, now: int)
    ensures FromDetails(UserDetailsRepo.StoredDetails(existing, userId, ToInput(p), now)) == p
  {
  }

  /** The rows `saveDetails` sends: those with a non-blank key or value,
      in form order. */
  function SentRows(rows: seq<InfoItem>): (r: seq<InfoItem>)
    ensures forall i :: 0 <= i < |r| ==> UserDetailsRepo.Kept(r[i]) && r[i] in rows
    ensures forall x :: x in rows && UserDetailsRepo.Kept(x) ==> x in r
  {
    Filter(rows, UserDetailsRepo.Kept)
  }

  /** The main process keeps every row the form sends: its own filter
      drops nothing more. */
  lemma SentRowsAllKept(rows: seq<InfoItem>)
    ensures Filter(SentRows(rows), UserDetailsRepo.Kept) == SentRows(rows)
  {
    FilterAll(SentRows(rows), UserDetailsRepo.Kept);
  }

  /** The rows without the one at `index`; any other index removes
      nothing. */
  function RemoveAt(rows: seq<InfoItem>, index: int): (r: seq<InfoItem>)
    ensures 0 <= index < |rows| ==> r == rows[..index] + rows[index + 1..]
    ensures !(0 <= index < |rows|) ==> r == rows
  {
    if 0 <= index < |rows| then rows[..index] + rows[index + 1..] else rows
  }

  datatype InfoField = Key | Value

  /** The result of a successful `userDetails.get()`. */
  datatype Loaded = Loaded(details: Option<UserDetailsRepo.Details>, additionalInfo: seq<InfoItem>)

  const SaveFailedMessage := "Failed to save. Please try again."

  class UserDetailsForm {
    var profile: Profile
    var additionalInfo: seq<InfoItem>
    var isLoading: bool
    var isSaving: bool
    var isDirty: bool
    var saveError: Option<string>

    constructor()
      ensures profile == EmptyProfile && additionalInfo == []
      ensures !isLoading && !isSaving && !isDirty && saveError.None?
    {
      profile := EmptyProfile;
      additionalInfo := [];
      isLoading, isSaving, isDirty := false, false, false;
      saveError := None;
    }

    /** `setField`: that field only; the form becomes dirty and the last
        save error is cleared. */
    method SetField(f: Field, v: string)
      modifies this
      ensures profile == With(old(profile), f, v)
      ensures isDirty && saveError.None? && additionalInfo == old(additionalInfo)
    {
      profile := With(profile, f, v);
      isDirty := true;
      saveError := None;
    }

    /** `setAdditionalInfo`. */
    method SetAdditionalInfo(rows: seq<InfoItem>)
      modifies this
      ensures additionalInfo == rows && isDirty && profile == old(profile) && saveError == old(saveError)
    {
      additionalInfo := rows;
      isDirty := true;
    }

    /** `addAdditionalInfoRow`: one empty row at the end. */
    method AddRow()
      modifies this
      ensures additionalInfo == old(additionalInfo) + [UserDetailsRepo.InfoItem("", "")]
      ensures isDirty && profile == old(profile) && saveError == old(saveError)
    {
      additionalInfo := additionalInfo + [UserDetailsRepo.InfoItem("", "")];
      isDirty := true;
    }

    /** `removeAdditionalInfoRow`: the row at `index` goes, the others keep
        their order. */
    method RemoveRow(index: int)
      modifies this
      ensures additionalInfo == RemoveAt(old(additionalInfo), index)
      ensures isDirty && profile == old(profile) && saveError == old(saveError)
    {
      additionalInfo := RemoveAt(additionalInfo, index);
      isDirty := true;
    }

    /** `updateAdditionalInfoRow` for a row of the list: only that field
        of that row changes. */
    method UpdateRow(index: int, f: InfoField, v: string)
      modifies this
      ensures 0 <= index < |old(additionalInfo)| ==>
        additionalInfo == old(additionalInfo)[index := if f == Key then old(additionalInfo)[index].(key := v)
                                                       else old(additionalInfo)[index].(value := v)]
      ensures !(0 <= index < |old(additionalInfo)|) ==> additionalInfo == old(additionalInfo)
      ensures isDirty && profile == old(profile) && saveError == old(saveError)
    {
      if 0 <= index < |additionalInfo| {
        var row := additionalInfo[index];
        additionalInfo := additionalInfo[index := if f == Key then row.(key := v) else row.(value := v)];
      }
      isDirty := true;
    }

    /** `loadDetails` (`None` when the call failed): stored details fill
        the fields; stored rows replace the list only when there are any;
        a successful load leaves the form clean. */
    method Load(result: Option<Loaded>)
      modifies this
      ensures !isLoading
      ensures result.Some? && result.value.details.Some? ==> profile == FromDetails(result.value.details.value)
      ensures result.None? || result.value.details.None? ==> profile == old(profile)
      ensures result.Some? && result.value.additionalInfo != [] ==> additionalInfo == result.value.additionalInfo
      ensures result.None? || result.value.additionalInfo == [] ==> additionalInfo == old(additionalInfo)
      ensures result.Some? ==> !isDirty
      ensures result.None? ==> isDirty == old(isDirty)
      ensures isSaving == old(isSaving) && saveError == old(saveError)
    {
      isLoading := true;
      if result.Some? {
        if result.value.details.Some? {
          profile := FromDetails(result.value.details.value);
        }
        if |result.value.additionalInfo| > 0 {
          additionalInfo := result.value.additionalInfo;
        }
        isDirty := false;
      }
      isLoading := false;
    }

    /** `saveDetails`: sends the details and the non-blank rows; on
        success the form is clean, on failure it keeps its changes and
        shows the error. Saving is over either way. */
    method Save(succeeded: bool) returns (ok: bool, sent: (UserDetailsRepo.DetailsInput, seq<InfoItem>))
      modifies this
      ensures sent == (ToInput(old(profile)), SentRows(old(additionalInfo)))
      ensures ok == succeeded && !isSaving
      ensures succeeded ==> !isDirty && saveError.None?
      ensures !succeeded ==> isDirty == old(isDirty) && saveError == Some(SaveFailedMessage)
      ensures profile == old(profile) && additionalInfo == old(additionalInfo)
    {
      isSaving := true;
      saveError := None;
      sent := (ToInput(profile), SentRows(additionalInfo));
      if succeeded {
        isDirty := false;
      } else {
        saveError := Some(SaveFailedMessage);
      }
      ok := succeeded;
      isSaving := false;
    }
  }

  /** Adding a row and removing the last one gives back the list. */
  lemma RemoveUndoesAdd(rows: seq<InfoItem>)
    ensures RemoveAt(rows + [UserDetailsRepo.InfoItem("", "")], |rows|) == rows
  {
    assert (rows + [UserDetailsRepo.InfoItem("", "")])[..|rows|] == rows;
  }

  /** An added empty row is never sent. */
  lemma EmptyRowNotSent(rows: seq<InfoItem>)
    ensures SentRows(rows + [UserDetailsRepo.InfoItem("", "")]) == SentRows(rows)
  {
    FilterAppend(rows, [UserDetailsRepo.InfoItem("", "")], UserDetailsRepo.Kept);
    assert !UserDetailsRepo.Kept(UserDetailsRepo.InfoItem("", ""));
    FilterNone([UserDetailsRepo.InfoItem("", "")], UserDetailsRepo.Kept);
  }
}
