/**
 * The profile page (src/pages/Profile.tsx): the saved profile, the form
 * copy being edited, and whether the form is shown. Typing changes only the
 * form; saving copies the form into the profile; cancelling copies the
 * profile back into the form.
 */
module Profile {

  datatype ProfileData = ProfileData(name: string, email: string, phone: string, address: string, avatar: string)

  /** The profile the page starts with. */
  const InitialProfile := ProfileData("Thomas Dupont", "thomas.dupont@example.com", "+228 90 12 34 56",
    "Lomé, Togo", "https://i.pravatar.cc/300?img=8")

  /** The inputs of the form, by their `name` attribute. */
  datatype Field = Name | Email | Phone | Address

  /** `{ ...prev, [name]: value }`: the named field takes the value, the
      others (the avatar included) are kept. */
  function SetField(p: ProfileData, field: Field, value: string): (r: ProfileData)
    ensures r.name == (if field == Name then value else p.name)
    ensures r.email == (if field == Email then value else p.email)
    ensures r.phone == (if field == Phone then value else p.phone)
    ensures r.address == (if field == Address then value else p.address)
    ensures r.avatar == p.avatar
  {
    match field
    case Name => p.(name := value)
    case Email => p.(email := value)
    case Phone => p.(phone := value)
    case Address => p.(address := value)
  }

  // ---------------------------------------------------- the e-mail input

  /** An ASCII letter or digit. */
  predicate IsLetDig(c: char) {
    'a' <= c <= 'z' || 'A' <= c <= 'Z' || '0' <= c <= '9'
  }

  /** A character allowed before the "@" of a valid e-mail address, as
      section 4.10.5.1.5 of the HTML Living Standard defines it: a letter,
      a digit, a dot, or one of the listed symbols. */
  predicate IsLocalChar(c: char) {
    IsLetDig(c) || c in ".!#$%&'*+/=?^_`{|}~-"
  }

  /** A domain label: 1 to 63 letters, digits and hyphens, beginning and
      ending with a letter or a digit. */
  predicate IsLabel(l: string) {
    0 < |l| <= 63 && IsLetDig(l[0]) && IsLetDig(l[|l| - 1]) &&
    forall i :: 0 <= i < |l| ==> IsLetDig(l[i]) || l[i] == '-'
  }

  /** The first index of `c` in `s`, or -1 when there is none. */
  function IndexOf(s: string, c: char): (k: int)
    ensures -1 <= k < |s|
    ensures k == -1 <==> c !in s
    ensures k >= 0 ==> s[k] == c && c !in s[..k]
  {
    if s == [] then -1
    else if s[0] == c then 0
    else
      var k := IndexOf(s[1..], c);
      assert s == [s[0]] + s[1..];
      if k == -1 then -1
      else
        assert s[..k + 1] == [s[0]] + s[1..][..k];
        k + 1
  }

  /** One or more labels separated by dots. */
  predicate IsDomain(d: string)
    decreases |d|
  {
    var k := IndexOf(d, '.');
    if k == -1 then IsLabel(d) else IsLabel(d[..k]) && IsDomain(d[k + 1..])
  }

  /** A valid e-mail address: one or more local characters, an "@", then a
      domain. */
  predicate IsValidEmail(e: string) {
    var k := IndexOf(e, '@');
    k > 0 && (forall i :: 0 <= i < k ==> IsLocalChar(e[i])) && IsDomain(e[k + 1..])
  }

  /** What the browser lets an e-mail input without `required` submit: an
      empty value or a valid address. */
  predicate EmailAccepted(e: string) {
    e == [] || IsValidEmail(e)
  }

  /** A domain never holds an "@". */
  lemma {:induction false} DomainHasNoAt(d: string)
    requires IsDomain(d)
    ensures '@' !in d
    decreases |d|
  {
    var k := IndexOf(d, '.');
    if k != -1 {
      DomainHasNoAt(d[k + 1..]);
      assert d == d[..k] + [d[k]] + d[k + 1..];
    }
  }

  /** The first occurrence of `c` in `a + [c] + b` is the one after `a`
      when `a` has none. */
  lemma {:induction false} IndexOfAfter(a: string, c: char, b: string)
    requires c !in a
    ensures IndexOf(a + [c] + b, c) == |a|
  {
    if a != [] {
      assert (a + [c] + b)[1..] == a[1..] + [c] + b;
      IndexOfAfter(a[1..], c, b);
    }
  }

  /** The first occurrence of `c` in `a + b` lies in `a` when `a` has one. */
  lemma {:induction false} IndexOfWithin(a: string, c: char, b: string)
    requires c in a
    ensures IndexOf(a + b, c) == IndexOf(a, c)
  {
    if a[0] != c {
      assert (a + b)[1..] == a[1..] + b;
      IndexOfWithin(a[1..], c, b);
    }
  }

  /** An "@" inside the part before the separator makes an address
      invalid: the first "@" is taken as the separator, and the domain after
      it then holds the second one. */
  lemma AtInLocalInvalid(local: string, domain: string)
    requires '@' in local
    ensures !IsValidEmail(local + "@" + domain)
  {
    var e := local + "@" + domain;
    var j := IndexOf(local, '@');
    IndexOfWithin(local, '@', ['@'] + domain);
    assert e == local + (['@'] + domain);
    assert IndexOf(e, '@') == j;
    if IsDomain(e[j + 1..]) {
      assert e[j + 1..][|local| - j - 1] == '@';
      DomainHasNoAt(e[j + 1..]);
    }
  }

  /** Without an "@" before the separator, an address is valid exactly when
      the part before is a non-empty run of local characters and the part
      after is a domain. */
  lemma SeparatorSplits(local: string, domain: string)
    requires '@' !in local
    ensures IsValidEmail(local + "@" + domain) <==>
      local != [] && (forall i :: 0 <= i < |local| ==> IsLocalChar(local[i])) && IsDomain(domain)
  {
    var e := local + "@" + domain;
    assert e == local + ['@'] + domain;
    IndexOfAfter(local, '@', domain);
    assert forall i :: 0 <= i < |local| ==> e[i] == local[i];
    assert e[|local| + 1..] == domain;
  }

  /** An address is valid exactly when it splits at an "@" into a non-empty
      run of local characters and a domain. */
  lemma ValidEmailParts(local: string, domain: string)
    ensures IsValidEmail(local + "@" + domain) <==>
      local != [] && (forall i :: 0 <= i < |local| ==> IsLocalChar(local[i])) && IsDomain(domain)
  {
    if '@' in local {
      AtInLocalInvalid(local, domain);
      assert !IsLocalChar(local[IndexOf(local, '@')]);
    } else {
      SeparatorSplits(local, domain);
    }
  }

  class ProfilePage {
    var profile: ProfileData
    var formData: ProfileData
    var isEditing: bool

    /** The form starts as a copy of the profile, hidden. */
    constructor ()
      ensures profile == InitialProfile && formData == profile && !isEditing
    {
      profile := InitialProfile;
      formData := InitialProfile;
      isEditing := false;
    }

    /** The "Modifier le profil" button shows the form. */
    method Edit()
      modifies this
      ensures isEditing && profile == old(profile) && formData == old(formData)
    {
      isEditing := true;
    }

    /** `handleChange`: one field of the form changes; the profile does not. */
    method Change(field: Field, value: string)
      modifies this
      ensures formData == SetField(old(formData), field, value)
      ensures profile == old(profile) && isEditing == old(isEditing)
    {
      formData := SetField(formData, field, value);
    }

    /** A submission of the form. The browser checks the e-mail input
        first: a value it does not accept stops the submission and nothing
        changes. Otherwise `handleSubmit` runs: the form becomes the profile
        and is hidden. */
    method Submit()
      modifies this
      ensures !EmailAccepted(old(formData.email)) ==>
        profile == old(profile) && formData == old(formData) && isEditing == old(isEditing)
      ensures EmailAccepted(old(formData.email)) ==>
        profile == old(formData) && formData == old(formData) && !isEditing
    {
      if EmailAccepted(formData.email) {
        profile := formData;
        isEditing := false;
      }
    }

    /** The "Annuler" button: the form is hidden and reset to the profile,
        which is kept. */
    method Cancel()
      modifies this
      ensures profile == old(profile) && formData == profile && !isEditing
    {
      isEditing := false;
      formData := profile;
    }
  }

  /** Opening the form, typing in it and cancelling leaves the profile as it
      was and the form equal to it again. */
  method EditThenCancel(page: ProfilePage, field: Field, value: string)
    modifies page
    ensures page.profile == old(page.profile) && page.formData == page.profile && !page.isEditing
  {
    page.Edit();
    page.Change(field, value);
    page.Cancel();
  }

  /** Opening the form, typing in it and saving stores exactly what was
      typed, over the form as it stood, unless the browser refuses the
      e-mail; then the profile is kept and the edited form stays open. */
  method EditThenSubmit(page: ProfilePage, field: Field, value: string)
    modifies page
    ensures var typed := SetField(old(page.formData), field, value);
      EmailAccepted(typed.email) ==> page.profile == typed && page.formData == typed && !page.isEditing
    ensures var typed := SetField(old(page.formData), field, value);
      !EmailAccepted(typed.email) ==> page.profile == old(page.profile) && page.formData == typed && page.isEditing
  {
    page.Edit();
    page.Change(field, value);
    page.Submit();
  }

  /** The browser accepts a short address and refuses a value without an
      "@" or with nothing before it. */
  lemma EmailExamples()
    ensures EmailAccepted("a@b")
    ensures !EmailAccepted("abc") && !EmailAccepted("@b")
  {
    assert IsLabel("b") && IndexOf("b", '.') == -1;
    ValidEmailParts("a", "b");
    assert "a@b" == "a" + "@" + "b";
    assert '@' !in "abc";
    assert IndexOf("@b", '@') == 0;
  }

  /** A change only ever touches the named field: changing a field to the
      value it already has changes nothing. */
  lemma SetFieldSameValue(p: ProfileData, field: Field)
    ensures SetField(p, field, match field
      case Name => p.name
      case Email => p.email
      case Phone => p.phone
      case Address => p.address) == p
  {
  }
}
