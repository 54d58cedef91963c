/**
 * The "Create Your Stall" dialog of components/vendor/CreateStallModal.tsx:
 * the stall fields, the two optional images with their type and size
 * check, the checks before submitting, the multipart form it sends, and
 * the message shown for each outcome.
 *
 * The stall fields are an object whose keys keep their insertion order; it
 * is modelled as a list of key/value pairs. The logged-in user's id, the two
 * stored tokens, the object URL made for a preview and the server's answer
 * are parameters; every `alert` is the returned message.
 */
module CreateStall {
  import opened Common
  import opened Text

  const MaxImageSize: nat := 5 * 1024 * 1024

  const NotAnImage: string := "❌ Please upload only image files"
  const TooLarge: string := "❌ Image size should be less than 5MB"
  const LoginFirst: string := "Please login to create a stall"
  const MissingRequired: string := "❌ Please fill in all required fields (Name, Category, Description, Address)"
  const NoToken: string := "❌ Authentication token not found. Please log in again."
  const Created: string := "✅ Stall created successfully!"
  const AuthFailed: string := "❌ Authentication failed. Please log in again."
  const GenericFailure: string := "❌ Error creating stall. Please try again."
  const Dashboard: string := "/vendor/dashboard"

  datatype File = File(mimeType: string, size: nat)

  datatype ImageSlot = Icon | Banner

  /** One part of the multipart body. */
  datatype FormEntry = TextEntry(key: string, text: string) | FileEntry(name: string, file: File)

  /** The server's answer: success, or an error with an optional HTTP status and `error` field. */
  datatype PostReply = Accepted | Rejected(status: Option<int>, errorField: Option<string>)

  type StallData = seq<(string, string)>

  /** The fields as initialised, and as reset after a stall is created. */
  const InitialStallData: StallData := [
    ("stall_name", ""), ("stall_description", ""), ("category", ""), ("stall_address", ""),
    ("stall_city", ""), ("stall_state", ""), ("stall_zipcode", ""), ("stall_country", "Philippines")]

  predicate UniqueKeys(data: StallData) {
    forall i, j :: 0 <= i < j < |data| ==> data[i].0 != data[j].0
  }

  /** The initial fields have eight different keys. */
  lemma InitialKeysUnique()
    ensures UniqueKeys(InitialStallData)
  {
    var d := InitialStallData;
    assert KeysDistinct(d);
    DistinctKeysUnique(d);
  }

  /** Each key differs from every later key, checked one key at a time. */
  predicate KeysDistinct(data: StallData) {
    data == [] || ((forall i :: 1 <= i < |data| ==> data[i].0 != data[0].0) && KeysDistinct(data[1..]))
  }

  lemma {:induction false} DistinctKeysUnique(data: StallData)
    requires KeysDistinct(data)
    ensures UniqueKeys(data)
  {
    if data != [] {
      DistinctKeysUnique(data[1..]);
      forall i, j | 0 <= i < j < |data|
        ensures data[i].0 != data[j].0
      {
        if i > 0 {
          assert data[i] == data[1..][i - 1] && data[j] == data[1..][j - 1];
        }
      }
    }
  }

  /** The value stored under a key, if any. */
  function Lookup(data: StallData, key: string): (r: Option<string>)
    ensures r.None? <==> forall i :: 0 <= i < |data| ==> data[i].0 != key
    ensures r.Some? ==> exists i :: 0 <= i < |data| && data[i] == (key, r.value)
  {
    if data == [] then None
    else if data[0].0 == key then Some(data[0].1)
    else
      var r := Lookup(data[1..], key);
      if r.Some? then
        ghost var i :| 0 <= i < |data[1..]| && data[1..][i] == (key, r.value);
        assert data[i + 1] == (key, r.value);
        r
      else r
  }

  /** `{...prev, [field]: value}`: an existing key keeps its place, a new key goes last. */
  function SetField(data: StallData, key: string, value: string): (r: StallData)
    ensures Lookup(r, key) == Some(value)
    ensures forall k :: k != key ==> Lookup(r, k) == Lookup(data, k)
    ensures Lookup(data, key).None? ==> r == data + [(key, value)]
  {
    if data == [] then [(key, value)]
    else if data[0].0 == key then [(key, value)] + data[1..]
    else [data[0]] + SetField(data[1..], key, value)
  }

  /** Setting an existing key keeps every key in its place. */
  lemma {:induction false} SetFieldKeepsPlaces(data: StallData, key: string, value: string)
    requires Lookup(data, key).Some?
    ensures |SetField(data, key, value)| == |data|
    ensures forall i :: 0 <= i < |data| ==> SetField(data, key, value)[i].0 == data[i].0
  {
    if data[0].0 != key {
      SetFieldKeepsPlaces(data[1..], key, value);
    }
  }

  /** Setting a field keeps the keys unique. */
  lemma {:induction false} SetFieldKeepsUnique(data: StallData, key: string, value: string)
    requires UniqueKeys(data)
    ensures UniqueKeys(SetField(data, key, value))
  {
    var r := SetField(data, key, value);
    if data == [] {
    } else if data[0].0 != key {
      var t := SetField(data[1..], key, value);
      SetFieldKeepsUnique(data[1..], key, value);
      assert Lookup(data[1..], data[0].0).None?;
      assert Lookup(t, data[0].0).None?;
      HeadAhead(data[0], t);
    } else {
      forall i, j | 0 <= i < j < |r|
        ensures r[i].0 != r[j].0
      {
        assert r[j] == data[j];
        if i > 0 {
          assert r[i] == data[i];
        }
      }
    }
  }

  /** A head whose key is absent from unique-keyed data keeps the keys unique. */
  lemma HeadAhead(h: (string, string), t: StallData)
    requires UniqueKeys(t) && forall i :: 0 <= i < |t| ==> t[i].0 != h.0
    ensures UniqueKeys([h] + t)
  {
    var r := [h] + t;
    forall i, j | 0 <= i < j < |r|
      ensures r[i].0 != r[j].0
    {
      assert r[j] == t[j - 1];
      if i > 0 {
        assert r[i] == t[i - 1];
      }
    }
  }

  /** `handleFileChange`'s check: an image of at most 5 MiB; the type check comes first. */
  function FileCheck(file: File): (alert: Option<string>)
    ensures alert.None? <==> StartsWith(file.mimeType, "image/") && file.size <= MaxImageSize
    ensures !StartsWith(file.mimeType, "image/") ==> alert == Some(NotAnImage)
    ensures StartsWith(file.mimeType, "image/") && file.size > MaxImageSize ==> alert == Some(TooLarge)
  {
    if !StartsWith(file.mimeType, "image/") then Some(NotAnImage)
    else if file.size > MaxImageSize then Some(TooLarge)
    else None
  }

  /** Exactly 5 MiB passes, one byte more does not. */
  lemma SizeBoundary()
    ensures FileCheck(File("image/png", 5242880)).None?
    ensures FileCheck(File("image/png", 5242881)) == Some(TooLarge)
  {
    assert "image/png"[..6] == "image/";
  }

  /** `localStorage.getItem("token") || sessionStorage.getItem("token")`. */
  function Token(local: Option<string>, session: Option<string>): (t: Option<string>)
    ensures Filled(local) ==> t == local
    ensures !Filled(local) ==> t == session
  {
    if Filled(local) then local else session
  }

  /** Name, category, description and address are all non-empty. */
  predicate HasRequired(data: StallData) {
    && Filled(Lookup(data, "stall_name")) && Filled(Lookup(data, "category"))
    && Filled(Lookup(data, "stall_description")) && Filled(Lookup(data, "stall_address"))
  }

  /** `if (!userId)`: a missing id and the id 0 both count as logged out. */
  predicate LoggedIn(userId: Option<int>) {
    userId.Some? && userId.value != 0
  }

  /** The checks before the request, in order; None means the request is sent. */
  function SubmitCheck(userId: Option<int>, data: StallData, token: Option<string>): (alert: Option<string>)
    ensures !LoggedIn(userId) ==> alert == Some(LoginFirst)
    ensures LoggedIn(userId) && !HasRequired(data) ==> alert == Some(MissingRequired)
    ensures LoggedIn(userId) && HasRequired(data) && !Filled(token) ==> alert == Some(NoToken)
    ensures alert.None? <==> LoggedIn(userId) && HasRequired(data) && Filled(token)
  {
    if !LoggedIn(userId) then Some(LoginFirst)
    else if !HasRequired(data) then Some(MissingRequired)
    else if !Filled(token) then Some(NoToken)
    else None
  }

  /** The text parts, one per stall field, in the fields' order. */
  function TextEntries(data: StallData): (r: seq<FormEntry>)
    ensures |r| == |data|
    ensures forall i :: 0 <= i < |data| ==> r[i] == TextEntry(data[i].0, data[i].1)
  {
    if data == [] then [] else [TextEntry(data[0].0, data[0].1)] + TextEntries(data[1..])
  }

  /** The multipart body: every field, then `user_id`, then the images that are set. */
  function FormEntries(data: StallData, userId: int, icon: Option<File>, banner: Option<File>): (r: seq<FormEntry>)
    ensures |r| == |data| + 1 + (if icon.Some? then 1 else 0) + (if banner.Some? then 1 else 0)
    ensures forall i :: 0 <= i < |data| ==> r[i] == TextEntry(data[i].0, data[i].1)
    ensures r[|data|] == TextEntry("user_id", IntText(userId))
    ensures icon.Some? ==> r[|data| + 1] == FileEntry("icon_image", icon.value)
    ensures banner.Some? ==> r[|r| - 1] == FileEntry("banner_image", banner.value)
    ensures icon.None? && banner.None? ==> |r| == |data| + 1
  {
    TextEntries(data) + [TextEntry("user_id", IntText(userId))]
    + (if icon.Some? then [FileEntry("icon_image", icon.value)] else [])
    + (if banner.Some? then [FileEntry("banner_image", banner.value)] else [])
  }

  /** The message for a failed request: 401 first, then the server's error text, then the generic one. */
  function FailureMessage(status: Option<int>, errorField: Option<string>): (m: string)
    ensures status == Some(401) ==> m == AuthFailed
    ensures status != Some(401) && Filled(errorField) ==> m == "❌ " + errorField.value
    ensures status != Some(401) && !Filled(errorField) ==> m == GenericFailure
  {
    if status == Some(401) then AuthFailed
    else if Filled(errorField) then "❌ " + errorField.value
    else GenericFailure
  }

  /** City, state, zip code and country are optional: changing any field but the four required ones does not change the checks. */
  lemma OptionalFieldsIgnored(userId: Option<int>, data: StallData, token: Option<string>, key: string, value: string)
    requires key != "stall_name" && key != "category" && key != "stall_description" && key != "stall_address"
    ensures SubmitCheck(userId, SetField(data, key, value), token) == SubmitCheck(userId, data, token)
  {
  }

  /** A required field left empty stops the submission with the same message whichever it is. */
  lemma RequiredFieldEmptied(userId: int, data: StallData, token: Option<string>, key: string)
    requires userId != 0
    requires key == "stall_name" || key == "category" || key == "stall_description" || key == "stall_address"
    ensures SubmitCheck(Some(userId), SetField(data, key, ""), token) == Some(MissingRequired)
  {
  }

  /** `CreateStallModal`'s state. */
  class CreateStallModal {
    var stallData: StallData
    var icon: Option<File>
    var banner: Option<File>
    var iconPreview: string
    var bannerPreview: string
    var isSubmitting: bool

    ghost predicate Valid()
      reads this
    {
      UniqueKeys(stallData)
    }

    constructor()
      ensures Valid()
      ensures stallData == InitialStallData && icon.None? && banner.None?
      ensures iconPreview == "" && bannerPreview == "" && !isSubmitting
    {
      InitialKeysUnique();
      stallData := InitialStallData;
      icon, banner := None, None;
      iconPreview, bannerPreview := "", "";
      isSubmitting := false;
    }

    /** `handleChange(field, value)`. */
    method HandleChange(field: string, value: string)
      requires Valid()
      modifies this
      ensures Valid()
      ensures stallData == SetField(old(stallData), field, value)
      ensures icon == old(icon) && banner == old(banner)
      ensures iconPreview == old(iconPreview) && bannerPreview == old(bannerPreview)
      ensures isSubmitting == old(isSubmitting)
    {
      SetFieldKeepsUnique(stallData, field, value);
      stallData := SetField(stallData, field, value);
    }

    /** `handleFileChange(slot, file)`; `objectUrl` is the preview address the browser makes. */
    method HandleFileChange(slot: ImageSlot, file: Option<File>, objectUrl: string) returns (alert: Option<string>)
      modifies this
      ensures file.None? ==> alert.None?
      ensures file.Some? ==> alert == FileCheck(file.value)
      ensures file.None? || alert.Some? ==>
        icon == old(icon) && banner == old(banner) && iconPreview == old(iconPreview) && bannerPreview == old(bannerPreview)
      ensures file.Some? && alert.None? && slot == Icon ==>
        icon == file && iconPreview == objectUrl && banner == old(banner) && bannerPreview == old(bannerPreview)
      ensures file.Some? && alert.None? && slot == Banner ==>
        banner == file && bannerPreview == objectUrl && icon == old(icon) && iconPreview == old(iconPreview)
      ensures stallData == old(stallData) && isSubmitting == old(isSubmitting)
    {
      alert := None;
      if file.Some? {
        alert := FileCheck(file.value);
        if alert.Some? {
          return;
        }
        if slot == Icon {
          icon := file;
          iconPreview := objectUrl;
        } else {
          banner := file;
          bannerPreview := objectUrl;
        }
      }
    }

    /** The reset after a stall is created: the initial fields, no images, no previews. */
    method ResetForm()
      modifies this
      ensures Valid()
      ensures stallData == InitialStallData && icon.None? && banner.None? && iconPreview == "" && bannerPreview == ""
      ensures isSubmitting == old(isSubmitting)
    {
      InitialKeysUnique();
      stallData := InitialStallData;
      icon, banner := None, None;
      iconPreview, bannerPreview := "", "";
    }

    /**
     * `handleSubmit()`: the checks, the request with its body, and the
     * outcome. `request` is the body sent, `route` the page navigated to.
     */
    method HandleSubmit(userId: Option<int>, localToken: Option<string>, sessionToken: Option<string>, reply: PostReply)
      returns (alert: string, request: Option<seq<FormEntry>>, closed: bool, route: Option<string>)
      requires Valid()
      modifies this
      ensures Valid()
      ensures !old(isSubmitting) ==> !isSubmitting
      ensures LoggedIn(userId) && HasRequired(old(stallData)) ==> !isSubmitting
      ensures !(LoggedIn(userId) && HasRequired(old(stallData))) ==> isSubmitting == old(isSubmitting)
      ensures var check := SubmitCheck(userId, old(stallData), Token(localToken, sessionToken));
        && (check.Some? ==> alert == check.value && request.None? && !closed && route.None?
                            && stallData == old(stallData) && icon == old(icon) && banner == old(banner)
                            && iconPreview == old(iconPreview) && bannerPreview == old(bannerPreview))
        && (check.None? ==> request == Some(FormEntries(old(stallData), userId.value, old(icon), old(banner))))
      ensures request.Some? && reply.Accepted? ==>
        && alert == Created && closed && route == Some(Dashboard)
        && stallData == InitialStallData && icon.None? && banner.None? && iconPreview == "" && bannerPreview == ""
      ensures request.Some? && reply.Rejected? ==>
        && alert == FailureMessage(reply.status, reply.errorField) && !closed && route.None?
        && stallData == old(stallData) && icon == old(icon) && banner == old(banner)
        && iconPreview == old(iconPreview) && bannerPreview == old(bannerPreview)
    {
      request, closed, route := None, false, None;
      if !LoggedIn(userId) {
        return LoginFirst, request, closed, route;
      }
      if !HasRequired(stallData) {
        return MissingRequired, request, closed, route;
      }
      isSubmitting := true;
      var token := Token(localToken, sessionToken);
      if !Filled(token) {
        isSubmitting := false;
        return NoToken, request, closed, route;
      }
      request := Some(FormEntries(stallData, userId.value, icon, banner));
      match reply {
        case Accepted =>
          alert := Created;
          closed := true;
          route := Some(Dashboard);
          ResetForm();
        case Rejected(status, errorField) =>
          alert := FailureMessage(status, errorField);
      }
      isSubmitting := false;
    }
  }
}
