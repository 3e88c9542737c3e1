/** The contact section: contact details merged from the saved profile
    over built-in defaults, social links shown only when set and labelled
    by a short handle, and the message form with its simulated submission. */
module Contact {
  import opened Common
  import opened Text
  import opened Browser

  /** The contact details before anything saved is merged in. */
  const DefaultContact: Fields := map[
    "email" := "your.email@example.com",
    "phone" := "+1 (555) 123-4567",
    "location" := "San Francisco, CA",
    "githubUrl" := "",
    "linkedinUrl" := "",
    "twitterUrl" := ""
  ]

  const GithubPrefix := "https://github.com/"
  const LinkedinPrefix := "https://linkedin.com/in/"
  const TwitterPrefix := "https://twitter.com/"

  /** The mounted details: the saved profile merged over the defaults. A
      saved field replaces the default even when it is empty. */
  function MountedContact(s: Storage, codec: Codec<Fields>): (p: Fields)
    ensures DefaultContact.Keys <= p.Keys
    ensures !Truthy(GetItem(s, ProfileKey)) || codec.decode(s[ProfileKey]).None? ==> p == DefaultContact
    ensures Truthy(GetItem(s, ProfileKey)) && codec.decode(s[ProfileKey]).Some? ==>
      var saved := codec.decode(s[ProfileKey]).value;
      p.Keys == DefaultContact.Keys + saved.Keys &&
      (forall k :: k in saved ==> p[k] == saved[k]) &&
      (forall k :: k in DefaultContact && k !in saved ==> p[k] == DefaultContact[k])
  {
    MergeSaved(DefaultContact, GetItem(s, ProfileKey), codec)
  }

  /** The profile the admin panel saved is shown over the defaults: its
      fields win, the defaults fill the rest. */
  lemma ContactShowsSavedProfile(s: Storage, codec: Codec<Fields>, saved: Fields)
    requires RoundTrips(codec, saved)
    ensures MountedContact(s[ProfileKey := codec.encode(saved)], codec) == DefaultContact + saved
    ensures "phone" !in saved ==> MountedContact(s[ProfileKey := codec.encode(saved)], codec)["phone"] == "+1 (555) 123-4567"
  {
  }

  /** A link's label: the URL with its first occurrence of the site prefix
      replaced by a short marker (`url.replace(prefix, marker)`). */
  function Handle(url: string, prefix: string, marker: string): (r: string)
    ensures (forall j :: 0 <= j <= |url| ==> !OccursAt(url, prefix, j)) ==> r == url
    ensures |prefix| <= |url| && url[..|prefix|] == prefix ==> r == marker + url[|prefix|..]
  {
    ReplaceFirst(url, prefix, marker)
  }

  /** A profile URL labels as `@user` on GitHub and Twitter and as
      `/in/user` on LinkedIn. */
  lemma HandlesOfProfileUrls(user: string)
    ensures Handle(GithubPrefix + user, GithubPrefix, "@") == "@" + user
    ensures Handle(LinkedinPrefix + user, LinkedinPrefix, "/in/") == "/in/" + user
    ensures Handle(TwitterPrefix + user, TwitterPrefix, "@") == "@" + user
  {
    assert (GithubPrefix + user)[..|GithubPrefix|] == GithubPrefix;
    assert (GithubPrefix + user)[|GithubPrefix|..] == user;
    assert (LinkedinPrefix + user)[..|LinkedinPrefix|] == LinkedinPrefix;
    assert (LinkedinPrefix + user)[|LinkedinPrefix|..] == user;
    assert (TwitterPrefix + user)[..|TwitterPrefix|] == TwitterPrefix;
    assert (TwitterPrefix + user)[|TwitterPrefix|..] == user;
  }

  /** A shown social link: where it goes and its caption. */
  datatype SocialLink = SocialLink(href: string, caption: string)

  datatype SocialLinks = SocialLinks(github: Option<SocialLink>, linkedin: Option<SocialLink>, twitter: Option<SocialLink>)

  function LinkFor(url: string, prefix: string, marker: string): (r: Option<SocialLink>)
    ensures r.Some? <==> url != ""
    ensures r.Some? ==> r.value == SocialLink(url, Handle(url, prefix, marker))
  {
    if url != "" then Some(SocialLink(url, Handle(url, prefix, marker))) else None
  }

  /** The "Follow Me" card: a link for each URL that is set. */
  function Socials(p: Fields): (r: SocialLinks)
    ensures r.github.Some? <==> Field(p, "githubUrl") != ""
    ensures r.linkedin.Some? <==> Field(p, "linkedinUrl") != ""
    ensures r.twitter.Some? <==> Field(p, "twitterUrl") != ""
    ensures r.github.Some? ==> r.github.value.href == p["githubUrl"]
    ensures r.linkedin.Some? ==> r.linkedin.value.href == p["linkedinUrl"]
    ensures r.twitter.Some? ==> r.twitter.value.href == p["twitterUrl"]
  {
    SocialLinks(
      LinkFor(Field(p, "githubUrl"), GithubPrefix, "@"),
      LinkFor(Field(p, "linkedinUrl"), LinkedinPrefix, "/in/"),
      LinkFor(Field(p, "twitterUrl"), TwitterPrefix, "@"))
  }

  /** With nothing saved the card shows no social link. */
  lemma DefaultContactHasNoSocials()
    ensures Socials(DefaultContact) == SocialLinks(None, None, None)
  {
  }

  /** The message form's inputs, by their `name` attribute. */
  datatype FormField = Name | Email | Subject | Message

  datatype ContactForm = ContactForm(name: string, email: string, subject: string, message: string)

  const EmptyForm := ContactForm("", "", "", "")

  /** `handleChange`: the named input takes the new value, the others keep theirs. */
  function WithField(f: ContactForm, field: FormField, value: string): (r: ContactForm)
    ensures field == Name ==> r == f.(name := value)
    ensures field == Email ==> r == f.(email := value)
    ensures field == Subject ==> r == f.(subject := value)
    ensures field == Message ==> r == f.(message := value)
  {
    match field
    case Name => f.(name := value)
    case Email => f.(email := value)
    case Subject => f.(subject := value)
    case Message => f.(message := value)
  }

  /** The browser submits the form only when every `required` input is
      filled and the submit button is not disabled. */
  predicate CanSubmit(f: ContactForm, isSubmitting: bool) {
    f.name != "" && f.email != "" && f.subject != "" && f.message != "" && !isSubmitting
  }

  /** The message form. */
  class ContactFormState {
    var form: ContactForm
    var isSubmitting: bool

    constructor ()
      ensures form == EmptyForm && !isSubmitting
    {
      form := EmptyForm;
      isSubmitting := false;
    }

    method HandleChange(field: FormField, value: string)
      modifies this
      ensures form == WithField(old(form), field, value) && isSubmitting == old(isSubmitting)
    {
      form := WithField(form, field, value);
    }

    /** `handleSubmit` up to the two-second wait: the button is disabled. */
    method Submit()
      modifies this
      ensures CanSubmit(old(form), old(isSubmitting)) ==> isSubmitting && form == old(form)
      ensures !CanSubmit(old(form), old(isSubmitting)) ==> isSubmitting == old(isSubmitting) && form == old(form)
    {
      if CanSubmit(form, isSubmitting) {
        isSubmitting := true;
      }
    }

    /** The end of the wait: the form is cleared and the button enabled. */
    method SubmitFinished()
      requires isSubmitting
      modifies this
      ensures form == EmptyForm && !isSubmitting
    {
      form := EmptyForm;
      isSubmitting := false;
    }
  }

  /** A cleared form cannot be submitted again until it is filled in. */
  lemma ClearedFormBlocksResubmit()
    ensures !CanSubmit(EmptyForm, false)
  {
  }
}
