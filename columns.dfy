/** Detection of the purchase-master columns by header rules, first match in
    column order (main.py:110-117). */
module ColumnRoles {
  import opened Cells
  import opened Seqs

  /** The semantic roles the purchase master's columns are searched for. */
  datatype Role = Sku | Manager | Brand | ProductName | Fns | VendorSku | Cp

  /** The rule a lower-cased header must satisfy to play `role`. */
  predicate Rule(role: Role, h: string) {
    match role
    case Sku => Contains(h, "easycomsku")
    case Manager => Contains(h, "brand manager")
    case Brand => h == "brand"
    case ProductName => Contains(h, "product") && Contains(h, "name")
    case Fns => Contains(h, "fns")
    case VendorSku => Contains(h, "vendor") && Contains(h, "sku")
    case Cp => h == "cp" || h == "cost" || h == "cost price"
  }

  predicate Matches(headers: seq<string>, role: Role, i: nat)
    requires i < |headers|
  {
    Rule(role, Lower(headers[i]))
  }

  /** The first header at or after `from` that plays `role`. */
  function DetectFrom(headers: seq<string>, role: Role, from: nat): (r: Option<nat>)
    requires from <= |headers|
    ensures r.Some? ==> from <= r.value < |headers| && Matches(headers, role, r.value)
    ensures r.Some? ==> forall j :: from <= j < r.value ==> !Matches(headers, role, j)
    ensures r.None? ==> forall j :: from <= j < |headers| ==> !Matches(headers, role, j)
    decreases |headers| - from
  {
    if from == |headers| then None
    else if Matches(headers, role, from) then Some(from)
    else DetectFrom(headers, role, from + 1)
  }

  /** `next((c for c in pm_df.columns if rule(c.lower())), None)`: the index
      of the first header, in column order, that plays `role`, or None. */
  function Detect(headers: seq<string>, role: Role): (r: Option<nat>)
    ensures r.Some? ==> r.value < |headers| && Matches(headers, role, r.value)
    ensures r.Some? ==> forall j :: 0 <= j < r.value ==> !Matches(headers, role, j)
    ensures r.None? ==> forall j :: 0 <= j < |headers| ==> !Matches(headers, role, j)
  {
    DetectFrom(headers, role, 0)
  }

  /** A detected header is never the empty string, so the source's
      truthiness tests (`if pm_sku:`) agree with "a header was found". */
  lemma DetectedHeaderNonEmpty(headers: seq<string>, role: Role)
    requires Detect(headers, role).Some?
    ensures headers[Detect(headers, role).value] != ""
  {
  }

  /** Headers after the first match do not change the outcome. */
  lemma DetectIgnoresLaterHeaders(headers: seq<string>, more: seq<string>, role: Role)
    requires Detect(headers, role).Some?
    ensures Detect(headers + more, role) == Detect(headers, role)
  {
    var i := Detect(headers, role).value;
    var all := headers + more;
    assert Matches(all, role, i) by { assert all[i] == headers[i]; }
    forall j | 0 <= j < i ensures !Matches(all, role, j) {
      assert !Matches(headers, role, j);
      assert all[j] == headers[j];
    }
  }

  /** The enrichment roles in the order the source adds their columns. */
  const EnrichmentOrder: seq<Role> := [Manager, Brand, ProductName, Fns, VendorSku, Cp]

  /** `roles` restricted to the ones detected in `headers`, in order. */
  function Resolved(headers: seq<string>, roles: seq<Role>): (r: seq<Role>)
    ensures forall role :: role in r <==> role in roles && Detect(headers, role).Some?
    ensures |r| <= |roles|
    ensures NoDup(roles) ==> NoDup(r) && Subseq(r, roles)
  {
    if roles == [] then []
    else
      var rest := Resolved(headers, roles[1..]);
      assert forall role :: role in roles <==> role == roles[0] || role in roles[1..];
      if Detect(headers, roles[0]).Some? then
        assert ([roles[0]] + rest)[1..] == rest;
        [roles[0]] + rest
      else rest
  }

  /** The enrichment columns that are added: a role's column exists only when
      both the SKU column and that role's column were detected. */
  function EnrichRoles(headers: seq<string>): (r: seq<Role>)
    ensures forall role :: role in r <==>
      role in EnrichmentOrder && Detect(headers, Sku).Some? && Detect(headers, role).Some?
    ensures NoDup(r) && Subseq(r, EnrichmentOrder)
  {
    assert NoDup(EnrichmentOrder);
    if Detect(headers, Sku).Some? then Resolved(headers, EnrichmentOrder) else []
  }
}
