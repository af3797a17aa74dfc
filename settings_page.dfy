/** The settings page (src/app/dashboard/settings/page.tsx): the profile
    form's request body, the organization form, the two notification
    switches and the two-dialog deletion of the organization. Each save is
    split into the click (which yields the request) and the response. */
module SettingsPage {
  import opened Values
  import ToastStore

  datatype Organization = Organization(id: string, name: string, slug: string, plan: string)
  datatype Profile = Profile(id: string, name: string, email: string, role: string)

  /** The profile request: the name and the e-mail when they differ from the
      loaded profile (always, before one has loaded), and both password
      fields when a new password was typed. */
  function ProfileBody(profile: Option<Profile>, name: string, email: string, currentPassword: string, newPassword: string): (body: map<string, string>)
    ensures "name" in body <==> profile.None? || name != profile.value.name
    ensures "email" in body <==> profile.None? || email != profile.value.email
    ensures "currentPassword" in body <==> newPassword != ""
    ensures "newPassword" in body <==> newPassword != ""
    ensures body.Keys <= {"name", "email", "currentPassword", "newPassword"}
    ensures "name" in body ==> body["name"] == name
    ensures "email" in body ==> body["email"] == email
    ensures newPassword != "" ==> body["currentPassword"] == currentPassword && body["newPassword"] == newPassword
  {
    var b0: map<string, string> := map[];
    var b1 := if profile.None? || name != profile.value.name then b0["name" := name] else b0;
    var b2 := if profile.None? || email != profile.value.email then b1["email" := email] else b1;
    if newPassword != "" then b2["currentPassword" := currentPassword]["newPassword" := newPassword] else b2
  }

  /** Nothing is sent exactly when a profile is loaded, neither field was
      edited and no new password was typed. */
  lemma NothingToSave(profile: Option<Profile>, name: string, email: string, currentPassword: string, newPassword: string)
    ensures ProfileBody(profile, name, email, currentPassword, newPassword) == map[] <==>
      profile.Some? && name == profile.value.name && email == profile.value.email && newPassword == ""
  {
    var body := ProfileBody(profile, name, email, currentPassword, newPassword);
    if !(profile.Some? && name == profile.value.name && email == profile.value.email && newPassword == "") {
      if profile.None? || name != profile.value.name { assert "name" in body; }
      else if email != profile.value.email { assert "email" in body; }
      else { assert "newPassword" in body; }
    }
  }

  datatype Channel = EmailChannel | PushChannel

  /** The toast after flipping a switch to `enabled`. */
  function ToggleDescription(channel: Channel, enabled: bool): string {
    (if channel == EmailChannel then "Email" else "Push") + " notifications " + (if enabled then "enabled" else "disabled") + " (mock)."
  }

  /** The two descriptions differ, so the toast tells on and off apart. */
  lemma ToggleDescriptionsDiffer(channel: Channel)
    ensures ToggleDescription(channel, true) != ToggleDescription(channel, false)
  {
    var name := if channel.EmailChannel? then "Email" else "Push";
    var on := ToggleDescription(channel, true);
    var off := ToggleDescription(channel, false);
    assert on[|name| + 15] == 'e' && off[|name| + 15] == 'd';
  }

  /** `handleDeleteOrg` as a transition of (step, confirmation text): from
      step 0 it opens the first dialog; at step 1 with the organization's
      name typed it resets and reports the mock deletion; otherwise it does
      nothing. The result's last part says whether the toast is shown. */
  function DeleteOrg(step: int, text: string, orgName: Option<string>): (int, string, bool) {
    if step == 0 then (1, text, false)
    else if step == 1 && orgName.Some? && text == orgName.value then (0, "", true)
    else (step, text, false)
  }

  /** The only caller of `handleDeleteOrg` is the step-2 dialog's "Delete
      Organization" button, where no branch applies: pressing it changes
      nothing and shows no toast. */
  lemma DeleteAtStepTwoInert(text: string, orgName: Option<string>)
    ensures DeleteOrg(2, text, orgName) == (2, text, false)
  {
  }

  /** From step 0 the handler always opens the first dialog; the toast is
      shown only from step 1 with the right name typed. */
  lemma DeleteOrgSteps(step: int, text: string, orgName: Option<string>)
    ensures step == 0 ==> DeleteOrg(step, text, orgName) == (1, text, false)
    ensures DeleteOrg(step, text, orgName).2 <==> step == 1 && orgName.Some? && text == orgName.value
    ensures DeleteOrg(step, text, orgName).2 ==> DeleteOrg(step, text, orgName).0 == 0 && DeleteOrg(step, text, orgName).1 == ""
  {
  }

  /** How a profile or organization save ended: the endpoint stored it,
      refused it with an error, or the request itself threw (no response,
      or a body that is not JSON). */
  datatype Outcome<T> = Saved(value: T) | Refused(error: string) | Threw

  class Page {
    var org: Option<Organization>
    var orgName: string
    var orgSlug: string
    var savingOrg: bool
    var profile: Option<Profile>
    var profileName: string
    var profileEmail: string
    var currentPassword: string
    var newPassword: string
    var savingProfile: bool
    var emailNotifications: bool
    var pushNotifications: bool
    var deleteStep: int
    var deleteConfirmText: string

    constructor()
      ensures org.None? && orgName == "" && orgSlug == "" && !savingOrg
      ensures profile.None? && profileName == "" && profileEmail == "" && currentPassword == "" && newPassword == "" && !savingProfile
      ensures emailNotifications && !pushNotifications && deleteStep == 0 && deleteConfirmText == ""
    {
      org := None;
      orgName := "";
      orgSlug := "";
      savingOrg := false;
      profile := None;
      profileName := "";
      profileEmail := "";
      currentPassword := "";
      newPassword := "";
      savingProfile := false;
      emailNotifications := true;
      pushNotifications := false;
      deleteStep := 0;
      deleteConfirmText := "";
    }

    /** `fetchSettings`: each answer that arrived fills its form. */
    method Loaded(orgResult: Option<Organization>, profileResult: Option<Profile>)
      modifies this`org, this`orgName, this`orgSlug, this`profile, this`profileName, this`profileEmail
      ensures orgResult.Some? ==> org == orgResult && orgName == orgResult.value.name && orgSlug == orgResult.value.slug
      ensures orgResult.None? ==> org == old(org) && orgName == old(orgName) && orgSlug == old(orgSlug)
      ensures profileResult.Some? ==>
        profile == profileResult && profileName == profileResult.value.name && profileEmail == profileResult.value.email
      ensures profileResult.None? ==> profile == old(profile) && profileName == old(profileName) && profileEmail == old(profileEmail)
    {
      if orgResult.Some? {
        org := orgResult;
        orgName := orgResult.value.name;
        orgSlug := orgResult.value.slug;
      }
      if profileResult.Some? {
        profile := profileResult;
        profileName := profileResult.value.name;
        profileEmail := profileResult.value.email;
      }
    }

    /** "Save" on the organization form: busy, sending `{ name, slug }`. */
    method StartSaveOrg() returns (name: string, slug: string)
      modifies this`savingOrg
      ensures savingOrg && name == orgName && slug == orgSlug
    {
      savingOrg := true;
      name, slug := orgName, orgSlug;
    }

    /** The end of the organization save: a stored organization replaces
        the loaded one with a confirmation, a refusal is toasted, a request
        that threw shows nothing; saving ends in every case. */
    method FinishSaveOrg(outcome: Outcome<Organization>, toasts: ToastStore.Store)
      requires toasts.Valid()
      modifies this`org, this`savingOrg, toasts
      ensures toasts.Valid() && !savingOrg
      ensures outcome.Saved? ==> org == Some(outcome.value)
      ensures !outcome.Saved? ==> org == old(org)
      ensures outcome.Threw? ==> toasts.toasts == old(toasts.toasts) && toasts.counter == old(toasts.counter)
      ensures outcome.Saved? ==>
        toasts.toasts == old(toasts.toasts) + [ToastStore.Toast(ToastStore.ToastId(toasts.counter), "Organization Updated", Some("Settings saved successfully."), None)]
      ensures outcome.Refused? ==>
        toasts.toasts == old(toasts.toasts) + [ToastStore.Toast(ToastStore.ToastId(toasts.counter), "Error", Some(outcome.error), Some("destructive"))]
    {
      if outcome.Saved? {
        org := Some(outcome.value);
        var _ := toasts.AddToast("Organization Updated", Some("Settings saved successfully."), None);
      } else if outcome.Refused? {
        var _ := toasts.AddToast("Error", Some(outcome.error), Some("destructive"));
      }
      savingOrg := false;
    }

    /** "Save" on the profile form, built field by field: with nothing
        changed it toasts "No Changes" and sends nothing; otherwise it stays
        busy and sends the body. */
    method StartSaveProfile(toasts: ToastStore.Store) returns (request: Option<map<string, string>>)
      requires toasts.Valid()
      modifies this`savingProfile, toasts
      ensures toasts.Valid()
      ensures var body := ProfileBody(profile, profileName, profileEmail, currentPassword, newPassword);
        if body == map[] then
          && request.None? && !savingProfile
          && toasts.toasts == old(toasts.toasts) + [ToastStore.Toast(ToastStore.ToastId(toasts.counter), "No Changes", Some("Nothing to save."), None)]
        else
          request == Some(body) && savingProfile && toasts.toasts == old(toasts.toasts) && toasts.counter == old(toasts.counter)
    {
      savingProfile := true;
      var body: map<string, string> := map[];
      if profile.None? || profileName != profile.value.name {
        body := body["name" := profileName];
      }
      if profile.None? || profileEmail != profile.value.email {
        body := body["email" := profileEmail];
      }
      if newPassword != "" {
        body := body["currentPassword" := currentPassword];
        body := body["newPassword" := newPassword];
      }
      if |body.Keys| == 0 {
        var _ := toasts.AddToast("No Changes", Some("Nothing to save."), None);
        savingProfile := false;
        return None;
      }
      request := Some(body);
    }

    /** The end of the profile save: on success the form shows the saved
        profile and both password fields are cleared; a refusal is toasted;
        a request that threw shows nothing; saving ends in every case. */
    method FinishSaveProfile(outcome: Outcome<Profile>, toasts: ToastStore.Store)
      requires toasts.Valid()
      modifies this`profile, this`profileName, this`profileEmail, this`currentPassword, this`newPassword, this`savingProfile, toasts
      ensures toasts.Valid() && !savingProfile
      ensures outcome.Saved? ==>
        && profile == Some(outcome.value) && profileName == outcome.value.name && profileEmail == outcome.value.email
        && currentPassword == "" && newPassword == ""
        && toasts.toasts == old(toasts.toasts) + [ToastStore.Toast(ToastStore.ToastId(toasts.counter), "Profile Updated", Some("Your settings have been saved."), None)]
      ensures !outcome.Saved? ==>
        && profile == old(profile) && profileName == old(profileName) && profileEmail == old(profileEmail)
        && currentPassword == old(currentPassword) && newPassword == old(newPassword)
      ensures outcome.Refused? ==>
        toasts.toasts == old(toasts.toasts) + [ToastStore.Toast(ToastStore.ToastId(toasts.counter), "Error", Some(outcome.error), Some("destructive"))]
      ensures outcome.Threw? ==> toasts.toasts == old(toasts.toasts) && toasts.counter == old(toasts.counter)
    {
      if outcome.Saved? {
        profile := Some(outcome.value);
        profileName := outcome.value.name;
        profileEmail := outcome.value.email;
        currentPassword := "";
        newPassword := "";
        var _ := toasts.AddToast("Profile Updated", Some("Your settings have been saved."), None);
      } else if outcome.Refused? {
        var _ := toasts.AddToast("Error", Some(outcome.error), Some("destructive"));
      }
      savingProfile := false;
    }

    /** `handleNotificationToggle(type)`: flip that switch only, and toast
        its new state. */
    method HandleNotificationToggle(channel: Channel, toasts: ToastStore.Store)
      requires toasts.Valid()
      modifies this`emailNotifications, this`pushNotifications, toasts
      ensures toasts.Valid()
      ensures channel == EmailChannel ==> emailNotifications == !old(emailNotifications) && pushNotifications == old(pushNotifications)
      ensures channel == PushChannel ==> pushNotifications == !old(pushNotifications) && emailNotifications == old(emailNotifications)
      ensures var enabled := if channel == EmailChannel then emailNotifications else pushNotifications;
        toasts.toasts == old(toasts.toasts) + [ToastStore.Toast(ToastStore.ToastId(toasts.counter), "Notification Setting", Some(ToggleDescription(channel, enabled)), None)]
    {
      if channel == EmailChannel {
        emailNotifications := !emailNotifications;
        var _ := toasts.AddToast("Notification Setting", Some(ToggleDescription(channel, emailNotifications)), None);
      } else {
        pushNotifications := !pushNotifications;
        var _ := toasts.AddToast("Notification Setting", Some(ToggleDescription(channel, pushNotifications)), None);
      }
    }

    /** The danger zone's "Delete" button opens the first dialog. */
    method AskDelete()
      modifies this`deleteStep
      ensures deleteStep == 1
    {
      deleteStep := 1;
    }

    /** The first dialog's "Continue". */
    method ContinueDelete()
      modifies this`deleteStep
      ensures deleteStep == 2
    {
      deleteStep := 2;
    }

    /** The first dialog's Cancel or closing: back to step 0, the typed text
        kept. */
    method CloseFirstDialog()
      modifies this`deleteStep
      ensures deleteStep == 0
    {
      deleteStep := 0;
    }

    /** The second dialog's Cancel or closing: back to step 0 with the text
        cleared. */
    method CloseSecondDialog()
      modifies this`deleteStep, this`deleteConfirmText
      ensures deleteStep == 0 && deleteConfirmText == ""
    {
      deleteStep := 0;
      deleteConfirmText := "";
    }

    /** Typing in the second dialog. */
    method TypeConfirmation(text: string)
      modifies this`deleteConfirmText
      ensures deleteConfirmText == text
    {
      deleteConfirmText := text;
    }

    /** The "Delete Organization" button is disabled until the typed text is
        the organization's name: it is enabled exactly when the handler,
        were it at step 1, would carry out the deletion. */
    function DeleteDisabled(): (r: bool)
      reads this
      ensures !r <==> DeleteOrg(1, deleteConfirmText, if org.Some? then Some(org.value.name) else None).2
    {
      !(org.Some? && deleteConfirmText == org.value.name)
    }

    /** `handleDeleteOrg()` */
    method HandleDeleteOrg(toasts: ToastStore.Store)
      requires toasts.Valid()
      modifies this`deleteStep, this`deleteConfirmText, toasts
      ensures toasts.Valid()
      ensures var next := DeleteOrg(old(deleteStep), old(deleteConfirmText), if org.Some? then Some(org.value.name) else None);
        && deleteStep == next.0 && deleteConfirmText == next.1
        && (next.2 ==> toasts.toasts == old(toasts.toasts) + [ToastStore.Toast(ToastStore.ToastId(toasts.counter), "Organization Deletion", Some("This is a mock operation. Organization was not actually deleted."), None)])
        && (!next.2 ==> toasts.toasts == old(toasts.toasts) && toasts.counter == old(toasts.counter))
    {
      if deleteStep == 0 {
        deleteStep := 1;
      } else if deleteStep == 1 && org.Some? && deleteConfirmText == org.value.name {
        deleteStep := 0;
        deleteConfirmText := "";
        var _ := toasts.AddToast("Organization Deletion", Some("This is a mock operation. Organization was not actually deleted."), None);
      }
    }
  }
}
