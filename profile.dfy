/** The farmer's profile card: one record edited in place, a snapshot taken
    when editing starts, and an `isEditing` flag. */
module Profile {
  import opened Toasts

  datatype ProfileData = ProfileData(
    name: string,
    email: string,
    phone: string,
    location: string,
    farmName: string,
    farmDescription: string,
    profileImage: string)

  /** The keys of a profile record (`keyof UserProfileData`). */
  datatype ProfileField = Name | Email | Phone | Location | FarmName | FarmDescription | ProfileImage

  /** The record the card starts with. */
  const SeedProfile := ProfileData(
    "John Smith",
    "john.smith@farm2hand.com",
    "+1 (555) 123-4567",
    "Green Valley, California",
    "Smith Organic Farm",
    "A family-owned organic farm specializing in fresh vegetables, herbs, and seasonal fruits. We have been serving our community for over 20 years with sustainable farming practices and the highest quality produce.",
    "https://images.pexels.com/photos/1139743/pexels-photo-1139743.jpeg?auto=compress&cs=tinysrgb&w=400")

  const SavedNotice := Notice("Your profile has been updated successfully! \U{1F331}", Success)
  const CancelledNotice := Notice("Profile changes have been cancelled.", Warning)

  /** `d[field]`. */
  function Get(d: ProfileData, f: ProfileField): string
  {
    match f
    case Name => d.name
    case Email => d.email
    case Phone => d.phone
    case Location => d.location
    case FarmName => d.farmName
    case FarmDescription => d.farmDescription
    case ProfileImage => d.profileImage
  }

  /** `{ ...d, [field]: value }`: the named field takes the value, every
      other field is kept. */
  function With(d: ProfileData, f: ProfileField, v: string): (r: ProfileData)
    ensures Get(r, f) == v
    ensures forall g :: g != f ==> Get(r, g) == Get(d, g)
  {
    match f
    case Name => d.(name := v)
    case Email => d.(email := v)
    case Phone => d.(phone := v)
    case Location => d.(location := v)
    case FarmName => d.(farmName := v)
    case FarmDescription => d.(farmDescription := v)
    case ProfileImage => d.(profileImage := v)
  }

  /** The component's state: `profileData`, `originalData`, `isEditing`. */
  datatype ProfileState = ProfileState(data: ProfileData, original: ProfileData, isEditing: bool)

  /** Outside an edit session the data equals its snapshot. */
  ghost predicate Settled(s: ProfileState)
  {
    !s.isEditing ==> s.data == s.original
  }

  /** The first render: not editing, snapshot equal to the seed data. */
  function Initial(): (s: ProfileState)
    ensures !s.isEditing && s.original == s.data && Settled(s)
  {
    ProfileState(SeedProfile, SeedProfile, false)
  }

  /** `handleStartEdit`. */
  function StartEdit(s: ProfileState): (r: ProfileState)
    ensures r.isEditing && r.data == s.data && r.original == s.data
  {
    s.(original := s.data, isEditing := true)
  }

  /** `handleInputChange`: only the named field of the data changes; the
      snapshot and the flag are untouched. The handler has no guard of its
      own: the card shows inputs only while editing. */
  function InputChange(s: ProfileState, f: ProfileField, v: string): (r: ProfileState)
    ensures Get(r.data, f) == v
    ensures forall g :: g != f ==> Get(r.data, g) == Get(s.data, g)
    ensures r.original == s.original && r.isEditing == s.isEditing
  {
    s.(data := With(s.data, f, v))
  }

  /** `handleSave`, committed at once with the data as it was when Save was
      clicked: the snapshot becomes the saved data. */
  function Save(s: ProfileState): (r: ProfileState)
    ensures !r.isEditing && r.data == s.data && r.original == s.data && Settled(r)
  {
    s.(original := s.data, isEditing := false)
  }

  /** `handleCancel`: the data goes back to the snapshot. */
  function Cancel(s: ProfileState): (r: ProfileState)
    ensures !r.isEditing && r.data == s.original && r.original == s.original && Settled(r)
  {
    s.(data := s.original, isEditing := false)
  }

  /** One keystroke in one input. */
  datatype Change = Change(field: ProfileField, value: string)

  function ApplyChanges(s: ProfileState, cs: seq<Change>): ProfileState
    decreases |cs|
  {
    if cs == [] then s else ApplyChanges(InputChange(s, cs[0].field, cs[0].value), cs[1..])
  }

  /** Input changes never touch the snapshot or the edit flag. */
  lemma {:induction false} ApplyChangesKeepsSnapshot(s: ProfileState, cs: seq<Change>)
    ensures ApplyChanges(s, cs).original == s.original
    ensures ApplyChanges(s, cs).isEditing == s.isEditing
    decreases |cs|
  {
    if cs != [] {
      ApplyChangesKeepsSnapshot(InputChange(s, cs[0].field, cs[0].value), cs[1..]);
    }
  }

  /** Start-edit, any input changes, then cancel gives back the pre-edit
      profile, field by field. */
  lemma EditThenCancel(s: ProfileState, cs: seq<Change>)
    ensures Cancel(ApplyChanges(StartEdit(s), cs)).data == s.data
    ensures forall f :: Get(Cancel(ApplyChanges(StartEdit(s), cs)).data, f) == Get(s.data, f)
    ensures !Cancel(ApplyChanges(StartEdit(s), cs)).isEditing
  {
    ApplyChangesKeepsSnapshot(StartEdit(s), cs);
  }

  /** After a save, the saved data is what any later cancel restores. */
  lemma SaveThenCancel(s: ProfileState, cs: seq<Change>)
    ensures Cancel(ApplyChanges(Save(s), cs)).data == s.data
  {
    ApplyChangesKeepsSnapshot(Save(s), cs);
  }

  /** Save followed by a fresh edit session: cancel returns to the saved data. */
  lemma SaveThenEditThenCancel(s: ProfileState, cs: seq<Change>)
    ensures Cancel(ApplyChanges(StartEdit(Save(s)), cs)).data == s.data
  {
    EditThenCancel(Save(s), cs);
  }

  /** The `UserProfile` component. */
  class UserProfile {
    var profileData: ProfileData
    var originalData: ProfileData
    var isEditing: bool

    function State(): ProfileState
      reads this
    {
      ProfileState(profileData, originalData, isEditing)
    }

    constructor ()
      ensures State() == Initial()
    {
      profileData := SeedProfile;
      originalData := SeedProfile;
      isEditing := false;
    }

    method HandleInputChange(field: ProfileField, value: string)
      modifies this
      ensures State() == InputChange(old(State()), field, value)
    {
      profileData := With(profileData, field, value);
    }

    /** Emits exactly one success notice. */
    method HandleSave() returns (notice: Notice)
      modifies this
      ensures State() == Save(old(State()))
      ensures notice == SavedNotice
    {
      isEditing := false;
      originalData := profileData;
      notice := SavedNotice;
    }

    /** Emits exactly one warning notice. */
    method HandleCancel() returns (notice: Notice)
      modifies this
      ensures State() == Cancel(old(State()))
      ensures notice == CancelledNotice
    {
      profileData := originalData;
      isEditing := false;
      notice := CancelledNotice;
    }

    method HandleStartEdit()
      modifies this
      ensures State() == StartEdit(old(State()))
    {
      originalData := profileData;
      isEditing := true;
    }
  }
}
