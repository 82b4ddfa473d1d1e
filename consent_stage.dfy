/**
 * The consent stage of an authentication flow (`ak-stage-consent`): it shows
 * the permissions an application asks for and submits the challenge's token.
 * The rendered page is described as a value of type `View`; markup, styles and
 * localised texts are not modelled, only which parts of the page appear and
 * what they list.
 */
module ConsentStage {
  import opened Wrappers

  /** One scope the application asks for. */
  datatype Permission = Permission(id: string, name: string)

  /** One rendered list entry: `data-permission-code` is `code`, the text is `name`. */
  datatype Item = Item(code: string, name: string)

  datatype FlowInfo = FlowInfo(title: Option<string>)

  /** The challenge the server sends for this stage. */
  datatype ConsentChallenge = ConsentChallenge(
    flowInfo: Option<FlowInfo>,
    headerText: Option<string>,
    permissions: seq<Permission>,
    additionalPermissions: seq<Permission>,
    token: string)

  /** Which explanatory sentence introduces a list of permissions. */
  datatype SectionLabel =
    | RequiresPermissions       // "Application requires following permissions:"
    | AlreadyHasPermissions     // "Application already has access to the following permissions:"
    | RequiresNewPermissions    // "Application requires following new permissions:"

  datatype Section = Section(kind: SectionLabel, items: seq<Item>)

  /** The two layouts of the form body. */
  datatype Layout =
    | NoPrevious(header: Option<string>, requested: Option<Section>)
    | Additional(header: Option<string>, granted: Option<Section>, requestedNew: Option<Section>)

  /** What the form submits. */
  datatype ConsentResponse = ConsentResponse(token: string)

  datatype View =
    | Loading
    | Page(title: Option<string>, layout: Layout, response: ConsentResponse)

  /** A permission that is shown to the user. */
  predicate Listed(p: Permission) {
    p.name != "" && p.id != "openid"
  }

  /** What the `map` callback of `renderPermissions` yields for one permission. */
  function RenderPermission(p: Permission): (fragment: seq<Item>)
    ensures |fragment| <= 1
    ensures fragment != [] ==> fragment == [Item(p.id, p.name)] && Listed(p)
  {
    if p.name == "" then []
    // the openid scope is never listed
    else if p.id == "openid" then []
    else [Item(p.id, p.name)]
  }

  /** A permission yields no item exactly when it has no name or is the openid scope, and otherwise its own. */
  lemma RenderPermissionCases(p: Permission)
    ensures RenderPermission(p) == [] <==> p.name == "" || p.id == "openid"
    ensures Listed(p) ==> RenderPermission(p) == [Item(p.id, p.name)]
  {
  }

  /** `renderPermissions`: the fragments of all permissions, in order. */
  function RenderPermissions(perms: seq<Permission>): (items: seq<Item>)
    ensures |items| <= |perms|
    ensures forall k :: 0 <= k < |items| ==> items[k].name != "" && items[k].code != "openid"
  {
    if perms == [] then [] else RenderPermission(perms[0]) + RenderPermissions(perms[1..])
  }

  /** Rendering a concatenation renders each part. */
  lemma {:induction false} RenderPermissionsAppend(a: seq<Permission>, b: seq<Permission>)
    ensures RenderPermissions(a + b) == RenderPermissions(a) + RenderPermissions(b)
  {
    if a == [] {
      assert a + b == b;
    } else {
      assert (a + b)[1..] == a[1..] + b;
      RenderPermissionsAppend(a[1..], b);
    }
  }

  /** The items of a list are those of everything before position `i`, then those of `perms[i]`, then the rest. */
  lemma RenderPermissionsSplit(perms: seq<Permission>, i: nat)
    requires i < |perms|
    ensures RenderPermissions(perms)
         == RenderPermissions(perms[..i]) + (RenderPermission(perms[i]) + RenderPermissions(perms[i + 1..]))
  {
    RenderPermissionsCut(perms, i);
    var rest := perms[i..];
    assert rest[0] == perms[i] && rest[1..] == perms[i + 1..];
  }

  /** Cutting the input anywhere cuts the items at the matching place. */
  lemma RenderPermissionsCut(perms: seq<Permission>, i: nat)
    requires i <= |perms|
    ensures RenderPermissions(perms) == RenderPermissions(perms[..i]) + RenderPermissions(perms[i..])
  {
    assert perms == perms[..i] + perms[i..];
    RenderPermissionsAppend(perms[..i], perms[i..]);
  }

  /** Extending a prefix by one permission appends that permission's fragment. */
  lemma RenderPermissionsPrefix(perms: seq<Permission>, i: nat)
    requires i < |perms|
    ensures RenderPermissions(perms[..i + 1]) == RenderPermissions(perms[..i]) + RenderPermission(perms[i])
  {
    assert perms[..i + 1] == perms[..i] + [perms[i]];
    RenderPermissionsAppend(perms[..i], [perms[i]]);
    RenderSingle(perms[i]);
  }

  lemma RenderSingle(p: Permission)
    ensures RenderPermissions([p]) == RenderPermission(p)
  {
  }

  /**
   * A listed permission produces the item at position `|RenderPermissions(perms[..i])|`,
   * carrying its own id and name; a permission that is not listed produces nothing.
   */
  lemma RenderPermissionsPosition(perms: seq<Permission>, i: nat)
    requires i < |perms|
    ensures Listed(perms[i]) ==>
      |RenderPermissions(perms[..i])| < |RenderPermissions(perms)|
      && RenderPermissions(perms)[|RenderPermissions(perms[..i])|] == Item(perms[i].id, perms[i].name)
    ensures !Listed(perms[i]) ==> RenderPermissions(perms[..i + 1]) == RenderPermissions(perms[..i])
  {
    RenderPermissionsSplit(perms, i);
    RenderPermissionsPrefix(perms, i);
  }

  /** The position of a permission's item grows strictly with the position of the permission. */
  lemma {:induction false} RenderPermissionsMonotone(perms: seq<Permission>, i: nat, j: nat)
    requires i < j <= |perms|
    ensures |RenderPermissions(perms[..i])| + |RenderPermission(perms[i])| <= |RenderPermissions(perms[..j])|
  {
    RenderPermissionsPrefix(perms, j - 1);
    if i < j - 1 {
      RenderPermissionsMonotone(perms, i, j - 1);
    }
  }

  /** Every item comes from one listed permission, found at the matching position. */
  lemma {:induction false} RenderPermissionsOrigin(perms: seq<Permission>, k: nat)
    requires k < |RenderPermissions(perms)|
    ensures exists i ::
      && 0 <= i < |perms| && Listed(perms[i])
      && |RenderPermissions(perms[..i])| == k
      && RenderPermissions(perms)[k] == Item(perms[i].id, perms[i].name)
  {
    var n := |perms| - 1;
    RenderPermissionsPrefix(perms, n);
    assert perms[..n + 1] == perms;
    if k < |RenderPermissions(perms[..n])| {
      RenderPermissionsOrigin(perms[..n], k);
      var i :| 0 <= i < |perms[..n]| && Listed(perms[..n][i])
        && |RenderPermissions(perms[..n][..i])| == k
        && RenderPermissions(perms[..n])[k] == Item(perms[..n][i].id, perms[..n][i].name);
      assert perms[..n][..i] == perms[..i];
      assert perms[..n][i] == perms[i];
    } else {
      assert Listed(perms[n]);
    }
  }

  /** Filtering the items once more, read back as permissions, changes nothing. */
  lemma {:induction false} RenderPermissionsIdempotent(perms: seq<Permission>)
    ensures RenderPermissions(AsPermissions(RenderPermissions(perms))) == RenderPermissions(perms)
  {
    if perms != [] {
      var head := RenderPermission(perms[0]);
      var tail := RenderPermissions(perms[1..]);
      RenderPermissionsIdempotent(perms[1..]);
      AsPermissionsAppend(head, tail);
      RenderPermissionsAppend(AsPermissions(head), AsPermissions(tail));
      if head != [] {
        assert AsPermissions(head) == [perms[0]];
        assert [perms[0]][1..] == [];
      }
    }
  }

  /** The permissions the items were rendered from. */
  function AsPermissions(items: seq<Item>): seq<Permission> {
    if items == [] then [] else [Permission(items[0].code, items[0].name)] + AsPermissions(items[1..])
  }

  lemma {:induction false} AsPermissionsAppend(a: seq<Item>, b: seq<Item>)
    ensures AsPermissions(a + b) == AsPermissions(a) + AsPermissions(b)
  {
    if a == [] {
      assert a + b == b;
    } else {
      assert (a + b)[1..] == a[1..] + b;
      AsPermissionsAppend(a[1..], b);
    }
  }

  /** A list section, present exactly when the (unfiltered) list is non-empty. */
  function PermissionSection(kind: SectionLabel, perms: seq<Permission>): (section: Option<Section>)
    ensures section.Some? <==> |perms| > 0
    ensures section.Some? ==> section.value.kind == kind && section.value.items == RenderPermissions(perms)
  {
    if |perms| > 0 then Some(Section(kind, RenderPermissions(perms))) else None
  }

  /** `renderNoPrevious`: the header and, if there are permissions, the list of them. */
  function RenderNoPrevious(c: ConsentChallenge): (layout: Layout)
    ensures layout.NoPrevious? && layout.header == c.headerText
    ensures layout.requested.Some? <==> |c.permissions| > 0
    ensures layout.requested.Some? ==>
      layout.requested.value.kind == RequiresPermissions
      && layout.requested.value.items == RenderPermissions(c.permissions)
  {
    NoPrevious(c.headerText, PermissionSection(RequiresPermissions, c.permissions))
  }

  /** `renderAdditional`: the already granted permissions, then the new ones. */
  function RenderAdditional(c: ConsentChallenge): (layout: Layout)
    ensures layout.Additional? && layout.header == c.headerText
    ensures layout.granted.Some? <==> |c.permissions| > 0
    ensures layout.granted.Some? ==>
      layout.granted.value.kind == AlreadyHasPermissions
      && layout.granted.value.items == RenderPermissions(c.permissions)
    ensures layout.requestedNew.Some? <==> |c.additionalPermissions| > 0
    ensures layout.requestedNew.Some? ==>
      layout.requestedNew.value.kind == RequiresNewPermissions
      && layout.requestedNew.value.items == RenderPermissions(c.additionalPermissions)
  {
    Additional(
      c.headerText,
      PermissionSection(AlreadyHasPermissions, c.permissions),
      PermissionSection(RequiresNewPermissions, c.additionalPermissions))
  }

  /** `flowInfo?.title`. */
  function Title(c: ConsentChallenge): (title: Option<string>)
    ensures title.Some? ==> c.flowInfo.Some? && c.flowInfo.value.title == title
    ensures c.flowInfo.Some? ==> title == c.flowInfo.value.title
  {
    match c.flowInfo
    case Some(info) => info.title
    case None => None
  }

  /** `render`: loading without a challenge, otherwise the form for it. */
  function Render(challenge: Option<ConsentChallenge>): (v: View)
    ensures v.Loading? <==> challenge.None?
    ensures challenge.Some? ==> v.response == ConsentResponse(challenge.value.token)
    ensures challenge.Some? ==> v.title == Title(challenge.value)
    ensures challenge.Some? ==>
      v.layout == (if |challenge.value.additionalPermissions| > 0 then RenderAdditional(challenge.value)
                   else RenderNoPrevious(challenge.value))
  {
    match challenge
    case None => Loading
    case Some(c) =>
      var layout := if |c.additionalPermissions| > 0 then RenderAdditional(c) else RenderNoPrevious(c);
      Page(Title(c), layout, ConsentResponse(c.token))
  }

  /** All items a layout lists. */
  function LayoutItems(layout: Layout): seq<Item> {
    match layout
    case NoPrevious(_, requested) => SectionItems(requested)
    case Additional(_, granted, requestedNew) => SectionItems(granted) + SectionItems(requestedNew)
  }

  function SectionItems(section: Option<Section>): seq<Item> {
    match section
    case Some(s) => s.items
    case None => []
  }

  /**
   * The page lists exactly the listed permissions of the challenge: first those of
   * `permissions`, then, in the additional layout, those of `additionalPermissions`.
   */
  lemma RenderedItems(c: ConsentChallenge)
    ensures Render(Some(c)).Page?
    ensures LayoutItems(Render(Some(c)).layout)
         == RenderPermissions(c.permissions) + RenderPermissions(c.additionalPermissions)
  {
  }

  /** No page ever lists the openid scope or a permission without a name. */
  lemma NeverListsHidden(c: ConsentChallenge, it: Item)
    requires it in LayoutItems(Render(Some(c)).layout)
    ensures it.code != "openid" && it.name != ""
  {
  }

  /** A section heading shows even when every permission in its list is hidden. */
  lemma HeadingWithoutItems()
    ensures Render(Some(ConsentChallenge(None, None, [Permission("openid", "OpenID")], [], "T")))
         == Page(None, NoPrevious(None, Some(Section(RequiresPermissions, []))), ConsentResponse("T"))
  {
  }

  /** A first-time consent for one readable permission: listed, and the token is what is submitted. */
  lemma FirstConsentExample()
    ensures Render(Some(ConsentChallenge(None, None, [Permission("a", "Read")], [], "T")))
         == Page(None, NoPrevious(None, Some(Section(RequiresPermissions, [Item("a", "Read")]))), ConsentResponse("T"))
  {
    assert RenderPermissions([Permission("a", "Read")]) == [Item("a", "Read")] by {
      RenderSingle(Permission("a", "Read"));
    }
  }
}
