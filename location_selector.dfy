/**
 * The market selector of components/location-selector.tsx: each market
 * address is shown as its name and district, and the choice is stored in
 * the shared app state, with "all" meaning no location.
 */
module LocationSelector {
  import opened Common
  import opened Text
  import opened AppContext

  const DefaultRegion: string := "Iloilo"
  const AllMarkets: string := "all"

  /** The position of the first occurrence, characterised independently of how IndexOf scans. */
  lemma FirstIndex(s: string, c: char, k: nat)
    requires k < |s| && s[k] == c
    requires forall j :: 0 <= j < k ==> s[j] != c
    ensures IndexOf(s, c) == k
  {
  }

  /** `fullAddress.split(',')[0]`: the longest prefix without a comma. */
  function DisplayName(address: string): (r: string)
    ensures StartsWith(address, r)
    ensures forall i :: 0 <= i < |r| ==> r[i] != ','
    ensures |r| < |address| ==> address[|r|] == ','
  {
    var k := IndexOf(address, ',');
    if k == -1 then address else address[..k]
  }

  /** `parts.length > 1 ? parts[1].trim() : 'Iloilo'`: the trimmed second comma-separated part. */
  function Region(address: string): (r: string)
    ensures IndexOf(address, ',') == -1 ==> r == DefaultRegion
    ensures IndexOf(address, ',') >= 0 ==> forall i :: 0 <= i < |r| ==> r[i] != ','
    ensures IndexOf(address, ',') >= 0 && r != [] ==> !IsSpace(r[0]) && !IsSpace(r[|r| - 1])
  {
    var k := IndexOf(address, ',');
    if k == -1 then DefaultRegion
    else
      var part := DisplayName(address[k + 1..]);
      TrimmedPart(part);
      Trim(part)
  }

  /** Trimming a comma-free part leaves it comma-free, with no whitespace at either end. */
  lemma TrimmedPart(part: string)
    requires forall i :: 0 <= i < |part| ==> part[i] != ','
    ensures forall i :: 0 <= i < |Trim(part)| ==> Trim(part)[i] != ','
    ensures Trim(part) != [] ==> !IsSpace(Trim(part)[0]) && !IsSpace(Trim(part)[|Trim(part)| - 1])
  {
    var lo, hi := TrimSlice(part);
    assert forall i :: 0 <= i < |Trim(part)| ==> Trim(part)[i] == part[lo + i];
  }

  /** An address without a comma is its own name, in the default region. */
  lemma NoCommaAddress(address: string)
    requires forall i :: 0 <= i < |address| ==> address[i] != ','
    ensures DisplayName(address) == address
    ensures Region(address) == DefaultRegion
  {
  }

  predicate NoComma(s: string) {
    forall i :: 0 <= i < |s| ==> s[i] != ','
  }

  /** An address "name, district, rest" is shown as the name in the trimmed district. */
  lemma ThreePartAddress(name: string, district: string, rest: string)
    requires NoComma(name) && NoComma(district)
    ensures DisplayName(name + "," + district + "," + rest) == name
    ensures Region(name + "," + district + "," + rest) == Trim(district)
  {
    var a := name + "," + district + "," + rest;
    FirstIndex(a, ',', |name|);
    var tail := a[|name| + 1..];
    assert tail == district + "," + rest;
    FirstIndex(tail, ',', |district|);
    assert tail[..|district|] == district;
    assert a[..|name|] == name;
  }

  /** An address "name, district" with a single comma is shown as the name in the trimmed district. */
  lemma TwoPartAddress(name: string, district: string)
    requires NoComma(name) && NoComma(district)
    ensures DisplayName(name + "," + district) == name
    ensures Region(name + "," + district) == Trim(district)
  {
    var a := name + "," + district;
    FirstIndex(a, ',', |name|);
    assert a[|name| + 1..] == district;
    assert a[..|name|] == name;
  }

  /** "Jaro Plaza Market, Jaro, Iloilo City" is shown as "Jaro Plaza Market" in "Jaro". */
  lemma JaroExample()
    ensures DisplayName("Jaro Plaza Market, Jaro, Iloilo City") == "Jaro Plaza Market"
    ensures Region("Jaro Plaza Market, Jaro, Iloilo City") == "Jaro"
  {
    var name, district, rest := "Jaro Plaza Market", " Jaro", " Iloilo City";
    assert NoComma(name);
    assert NoComma(district);
    assert name + "," + district + "," + rest == "Jaro Plaza Market, Jaro, Iloilo City";
    ThreePartAddress(name, district, rest);
    TrimJaro();
  }

  lemma TrimJaro()
    ensures Trim(" Jaro") == "Jaro"
  {
    var d := " Jaro";
    assert IsSpace(d[0]) && d[1..] == "Jaro";
    assert !IsSpace('J') && !IsSpace('o');
    assert TrimStart("Jaro") == "Jaro";
    assert TrimStart(d) == "Jaro";
    assert TrimEnd("Jaro") == "Jaro";
  }

  /** The choice passed to `setSelectedLocation`: "all" is stored as the empty location. */
  function Stored(value: string): (r: string)
    ensures value == AllMarkets <==> r == "" && value != ""
    ensures value != AllMarkets ==> r == value
  {
    if value == AllMarkets then "" else value
  }

  /** The select's value: an absent or empty location shows as "all". */
  function Shown(selected: Option<string>): (r: string)
    ensures !Filled(selected) ==> r == AllMarkets
    ensures Filled(selected) ==> r == selected.value
  {
    OrElse(selected, AllMarkets)
  }

  /** Storing a choice and showing it again gives the choice back. */
  lemma ShownAfterStored(value: string)
    requires value != ""
    ensures Shown(Some(Stored(value))) == value
  {
  }

  /** Picking an option in the select. */
  method Choose(app: AppState, value: string)
    requires app.Valid()
    modifies app
    ensures app.Valid()
    ensures app.selectedLocation == Some(Stored(value))
    ensures value != "" ==> Shown(app.selectedLocation) == value
    ensures app.cart == old(app.cart) && app.currentUser == old(app.currentUser)
    ensures app.userStatus == old(app.userStatus) && app.userRole == old(app.userRole)
  {
    app.SetSelectedLocation(Stored(value));
  }
}
