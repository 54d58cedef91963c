/**
 * The "Add New Product" dialog of components/vendor/add-product-modal.tsx:
 * loading the vendor's stalls when it opens, choosing one, the checks
 * before submitting, the product body it posts, and the submit button's
 * state.
 *
 * Reading the stored token, decoding it and the two requests are not
 * modelled; what they produce is a parameter. Every `alert` is a returned
 * message. The price text is passed on as typed, because `parseFloat` is
 * floating point.
 */
module AddProduct {
  import opened Common
  import opened Text

  const NoTokenOnLoad: string := "No authentication token found"
  const NotAuthenticated: string := "User not authenticated"
  const AuthError: string := "Authentication error"
  const NoStalls: string := "No stalls found. Please create a stall first."
  const SelectStallFirst: string := "Please select a stall first"
  const MissingFields: string := "Please fill in all required fields"
  const NoTokenOnSubmit: string := "No authentication token found. Please log in again."
  const Added: string := "Product added successfully!"
  const ErrorPrefix: string := "Error adding product: "
  const AddFallback: string := "Failed to add product"
  const ChooseStall: string := "Select a stall"

  /** A row of `/api/stalls/vendor/:id`; the id is the table's serial number. */
  datatype Stall = Stall(stallId: nat, stallName: string)

  /**
   * What loading the stalls ends with: no stored token, a payload without a
   * user id, a token that cannot be decoded, a request that fails or answers
   * with something other than a list, or the vendor's stalls.
   */
  datatype StallsReply = NoToken | NoUserId | BadToken | RequestFailed | StallsFound(stalls: seq<Stall>)

  /** The posted product. `stallId` is `Number(selectedStallId)`; None is NaN. */
  datatype ProductBody = ProductBody(stallId: Option<int>, itemName: string, category: string,
                                     price: string, itemStocks: int, itemDescription: string)

  /** The answer to the post: created, refused with an optional `error` field, or a thrown error's message. */
  datatype PostReply = Created | Refused(errorField: Option<string>) | Threw(message: string)

  /**
   * The message the mount effect leaves. The inner `catch` around the
   * decoding also surrounds the request, so every failure after the token
   * check reads "Authentication error".
   */
  function LoadError(reply: StallsReply): (e: string)
    ensures e == "" <==> reply.StallsFound? && reply.stalls != []
    ensures reply.NoToken? ==> e == NoTokenOnLoad
    ensures reply.NoUserId? ==> e == NotAuthenticated
    ensures reply.BadToken? || reply.RequestFailed? ==> e == AuthError
    ensures reply == StallsFound([]) ==> e == NoStalls
  {
    match reply
    case NoToken => NoTokenOnLoad
    case NoUserId => NotAuthenticated
    case BadToken => AuthError
    case RequestFailed => AuthError
    case StallsFound(stalls) => if stalls == [] then NoStalls else ""
  }

  /** The first stall whose id reads as the selected value (`${s.stall_id}` === selectedStallId). */
  function FindStall(stalls: seq<Stall>, selected: string): (r: Option<Stall>)
    ensures r.None? <==> forall i :: 0 <= i < |stalls| ==> Decimal(stalls[i].stallId) != selected
    ensures r.Some? ==> exists i :: 0 <= i < |stalls| && stalls[i] == r.value
                          && Decimal(r.value.stallId) == selected
                          && forall j :: 0 <= j < i ==> Decimal(stalls[j].stallId) != selected
  {
    if stalls == [] then None
    else if Decimal(stalls[0].stallId) == selected then Some(stalls[0])
    else
      var r := FindStall(stalls[1..], selected);
      if r.Some? then
        ghost var i :| 0 <= i < |stalls[1..]| && stalls[1..][i] == r.value
                       && Decimal(r.value.stallId) == selected
                       && forall j :: 0 <= j < i ==> Decimal(stalls[1..][j].stallId) != selected;
        assert stalls[i + 1] == r.value;
        assert forall j :: 1 <= j < i + 1 ==> stalls[j] == stalls[1..][j - 1];
        r
      else r
  }

  /** The select's label: the chosen stall's name, or the prompt when none matches or the name is empty. */
  function TriggerLabel(stalls: seq<Stall>, selected: string): (caption: string)
    ensures FindStall(stalls, selected).None? ==> caption == ChooseStall
    ensures FindStall(stalls, selected).Some? && FindStall(stalls, selected).value.stallName != "" ==>
      caption == FindStall(stalls, selected).value.stallName
    ensures FindStall(stalls, selected).Some? && FindStall(stalls, selected).value.stallName == "" ==>
      caption == ChooseStall
  {
    var s := FindStall(stalls, selected);
    if s.Some? && s.value.stallName != "" then s.value.stallName else ChooseStall
  }

  /**
   * The "Selected:" line as written: its `find` callback returns the
   * template text "<id> === <selected>", which is never empty and so always
   * truthy, and the first stall is found whatever is selected.
   */
  function SelectedLineAsWritten(stalls: seq<Stall>, selected: string): (name: Option<string>)
    ensures stalls == [] ==> name.None?
    ensures stalls != [] ==> name == Some(stalls[0].stallName)
  {
    if stalls == [] then None else Some(stalls[0].stallName)
  }

  /** The "Selected:" line as evidently intended: the name of the selected stall. */
  function SelectedLine(stalls: seq<Stall>, selected: string): (name: Option<string>)
    ensures name.Some? <==> exists i :: 0 <= i < |stalls| && Decimal(stalls[i].stallId) == selected
    ensures name.Some? ==> exists i :: 0 <= i < |stalls| && Decimal(stalls[i].stallId) == selected
                             && stalls[i].stallName == name.value
  {
    var s := FindStall(stalls, selected);
    if s.Some? then Some(s.value.stallName) else None
  }

  /** With two stalls and the second one chosen, the line as written names the first. */
  lemma SelectedLineShowsFirstStall()
    ensures SelectedLineAsWritten([Stall(1, "Aling Nena"), Stall(2, "Mang Tomas")], "2") == Some("Aling Nena")
    ensures SelectedLine([Stall(1, "Aling Nena"), Stall(2, "Mang Tomas")], "2") == Some("Mang Tomas")
  {
    var stalls := [Stall(1, "Aling Nena"), Stall(2, "Mang Tomas")];
    assert Decimal(1) == "1" && Decimal(2) == "2";
    assert FindStall(stalls[1..], "2") == Some(stalls[1]);
  }

  /** The checks before submitting, in order; None lets the submission go on. */
  function SubmitCheck(selected: string, name: string, price: string, category: string): (alert: Option<string>)
    ensures alert.None? <==> selected != "" && Trim(name) != "" && price != "" && category != ""
    ensures selected == "" ==> alert == Some(SelectStallFirst)
    ensures selected != "" && (Trim(name) == "" || price == "" || category == "") ==> alert == Some(MissingFields)
  {
    if selected == "" then Some(SelectStallFirst)
    else if Trim(name) == "" || price == "" || category == "" then Some(MissingFields)
    else None
  }

  /** A name of blanks only is refused, like an empty one. */
  lemma BlankNameRefused(selected: string, name: string, price: string, category: string)
    requires selected != "" && forall i :: 0 <= i < |name| ==> IsSpace(name[i])
    ensures SubmitCheck(selected, name, price, category) == Some(MissingFields)
  {
    TrimEmpty(name);
  }

  /** The product body built from the form. */
  function Body(selected: string, name: string, category: string, price: string,
                stock: string, description: string): (b: ProductBody)
    ensures b.stallId == NumberOf(selected)
    ensures b.itemName == Trim(name) && b.itemDescription == Trim(description)
    ensures b.category == category && b.price == price
    ensures ParseInt(stock).Some? && ParseInt(stock).value != 0 ==> b.itemStocks == ParseInt(stock).value
    ensures ParseInt(stock).None? || ParseInt(stock) == Some(0) ==> b.itemStocks == 0
  {
    ProductBody(NumberOf(selected), Trim(name), category, price, ParseIntOr(stock, 0), Trim(description))
  }

  /** The sent name is a piece of the typed one, with no blank at either end. */
  lemma BodyNameTrimmed(selected: string, name: string, category: string, price: string,
                        stock: string, description: string)
    ensures var n := Body(selected, name, category, price, stock, description).itemName;
      && (n != [] ==> !IsSpace(n[0]) && !IsSpace(n[|n| - 1]))
      && exists lo, hi :: 0 <= lo <= hi <= |name| && n == name[lo..hi]
  {
    var lo, hi := TrimSlice(name);
  }

  /** A stall chosen by its id sends that id back as a number, and a typed stock of n sends n. */
  lemma {:induction false} ChosenStallSent(s: Stall, name: string, category: string, price: string,
                                           n: nat, description: string)
    ensures var b := Body(Decimal(s.stallId), name, category, price, Decimal(n), description);
      b.stallId == Some(s.stallId as int) && b.itemStocks == n
  {
    NumberOfDecimal(s.stallId);
    ParseIntDecimal(n);
  }

  /** The message after the post. */
  function PostMessage(reply: PostReply): (m: string)
    ensures reply.Created? <==> m == Added
    ensures reply.Refused? ==> m == ErrorPrefix + OrElse(reply.errorField, AddFallback)
    ensures reply.Threw? ==> m == ErrorPrefix + reply.message
  {
    match reply
    case Created => Added
    case Refused(errorField) =>
      var m := ErrorPrefix + OrElse(errorField, AddFallback);
      assert m[0] != Added[0];
      m
    case Threw(message) =>
      var m := ErrorPrefix + message;
      assert m[0] != Added[0];
      m
  }

  /** What one submission shows, sends and whether it closes the dialog. */
  datatype Submitted = Submitted(alert: string, request: Option<ProductBody>, closed: bool)

  /**
   * `handleSubmit` from the form, the stored token and the post's outcome:
   * a failed check alerts and sends nothing, a missing token alerts and
   * sends nothing, otherwise the body is sent and the outcome's message
   * shown; the dialog closes only after a created product.
   */
  function Submission(selected: string, name: string, category: string, price: string, stock: string,
                      description: string, token: Option<string>, reply: PostReply): (o: Submitted)
    ensures var check := SubmitCheck(selected, name, price, category);
      && (check.Some? ==> o.alert == check.value && o.request.None?)
      && (check.None? && !Filled(token) ==> o.alert == NoTokenOnSubmit && o.request.None?)
      && (check.None? && Filled(token) ==>
            o.request == Some(Body(selected, name, category, price, stock, description))
            && o.alert == PostMessage(reply))
    ensures o.closed <==> o.request.Some? && reply.Created?
    ensures o.closed <==> o.alert == Added
  {
    var check := SubmitCheck(selected, name, price, category);
    if check.Some? then Submitted(check.value, None, false)
    else if !Filled(token) then Submitted(NoTokenOnSubmit, None, false)
    else Submitted(PostMessage(reply), Some(Body(selected, name, category, price, stock, description)), reply.Created?)
  }

  /** `AddProductModal()`'s state. */
  class AddProductModal {
    var name: string
    var category: string
    var price: string
    var stock: string
    var description: string
    var stalls: seq<Stall>
    var selectedStallId: string
    var isSubmitting: bool
    var isLoadingStalls: bool
    var error: string

    constructor()
      ensures name == "" && category == "" && price == "" && stock == "" && description == ""
      ensures stalls == [] && selectedStallId == "" && !isSubmitting && isLoadingStalls && error == ""
    {
      name, category, price, stock, description := "", "", "", "", "";
      stalls := [];
      selectedStallId := "";
      isSubmitting := false;
      isLoadingStalls := true;
      error := "";
    }

    /** The submit button: off while submitting, without a chosen stall, or without stalls. */
    function SubmitDisabled(): (disabled: bool)
      reads this
      ensures !disabled <==> !isSubmitting && selectedStallId != "" && |stalls| > 0
    {
      isSubmitting || selectedStallId == "" || |stalls| == 0
    }

    /** The mount effect: the stalls are kept and the first is chosen; loading ends on every path. */
    method LoadStalls(reply: StallsReply)
      modifies this
      ensures !isLoadingStalls && error == LoadError(reply)
      ensures reply.StallsFound? ==> stalls == reply.stalls
      ensures !reply.StallsFound? ==> stalls == old(stalls)
      ensures reply.StallsFound? && reply.stalls != [] ==> selectedStallId == Decimal(reply.stalls[0].stallId)
      ensures !(reply.StallsFound? && reply.stalls != []) ==> selectedStallId == old(selectedStallId)
      ensures name == old(name) && category == old(category) && price == old(price)
      ensures stock == old(stock) && description == old(description) && isSubmitting == old(isSubmitting)
    {
      isLoadingStalls := true;
      error := "";
      match reply {
        case NoToken =>
          error := NoTokenOnLoad;
        case NoUserId =>
          error := NotAuthenticated;
        case BadToken =>
          error := AuthError;
        case RequestFailed =>
          error := AuthError;
        case StallsFound(found) =>
          stalls := found;
          if |found| > 0 {
            selectedStallId := Decimal(found[0].stallId);
          } else {
            error := NoStalls;
          }
      }
      isLoadingStalls := false;
    }

    /** `handleStallChange`. */
    method ChangeStall(value: string)
      modifies this
      ensures selectedStallId == value && stalls == old(stalls) && error == old(error)
      ensures name == old(name) && category == old(category) && price == old(price)
      ensures stock == old(stock) && description == old(description) && isSubmitting == old(isSubmitting)
      ensures isLoadingStalls == old(isLoadingStalls)
    {
      selectedStallId := value;
    }

    /** The five inputs. */
    method SetForm(n: string, c: string, p: string, s: string, d: string)
      modifies this
      ensures name == n && category == c && price == p && stock == s && description == d
      ensures stalls == old(stalls) && selectedStallId == old(selectedStallId)
      ensures error == old(error) && isSubmitting == old(isSubmitting)
      ensures isLoadingStalls == old(isLoadingStalls)
    {
      name, category, price, stock, description := n, c, p, s, d;
    }

    /**
     * `handleSubmit`: `token` is the stored token read after the checks,
     * `reply` the post's outcome. `closed` is the `onClose()` call that
     * follows a created product.
     */
    method HandleSubmit(token: Option<string>, reply: PostReply)
      returns (alert: string, request: Option<ProductBody>, closed: bool)
      modifies this
      ensures Submitted(alert, request, closed)
           == Submission(selectedStallId, name, category, price, stock, description, token, reply)
      ensures isSubmitting == (if SubmitCheck(selectedStallId, name, price, category).Some? then old(isSubmitting) else false)
      ensures name == old(name) && category == old(category) && price == old(price)
      ensures stock == old(stock) && description == old(description)
      ensures stalls == old(stalls) && selectedStallId == old(selectedStallId) && error == old(error)
      ensures isLoadingStalls == old(isLoadingStalls)
    {
      ghost var outcome := Submission(selectedStallId, name, category, price, stock, description, token, reply);
      request, closed := None, false;
      var check := SubmitCheck(selectedStallId, name, price, category);
      if check.Some? {
        alert := check.value;
        assert outcome == Submitted(alert, request, closed);
        return;
      }
      isSubmitting := true;
      if !Filled(token) {
        alert := NoTokenOnSubmit;
        isSubmitting := false;
        assert outcome == Submitted(alert, request, closed);
        return;
      }
      var body := Body(selectedStallId, name, category, price, stock, description);
      request := Some(body);
      alert := PostMessage(reply);
      closed := reply.Created?;
      isSubmitting := false;
      assert outcome == Submitted(alert, request, closed);
    }

    /**
     * The "Selected:" line, shown while a stall is chosen. It renders the
     * corrected SelectedLine (the chosen stall's name), not the first stall
     * that SelectedLineAsWritten shows.
     */
    function SelectedText(): (shown: Option<string>)
      reads this
      ensures selectedStallId == "" ==> shown.None?
      ensures shown.Some? ==> exists i :: 0 <= i < |stalls| && Decimal(stalls[i].stallId) == selectedStallId
                                && stalls[i].stallName == shown.value
    {
      if selectedStallId == "" then None else SelectedLine(stalls, selectedStallId)
    }
  }

  /** After a successful load, the chosen stall is the first one, and the label names it. */
  lemma {:induction false} LoadedStallIsFound(stalls: seq<Stall>)
    requires stalls != []
    ensures FindStall(stalls, Decimal(stalls[0].stallId)) == Some(stalls[0])
    ensures SelectedLine(stalls, Decimal(stalls[0].stallId)) == Some(stalls[0].stallName)
  {
  }
}
