/** The sites tab (components/dashboard/tabs/sites-tab.tsx): the site list with its add, edit,
    delete and close actions, and the status label. Sites are JSON objects; the form holds the
    five properties the dialogs edit. The clock reading behind the new id and the opening date is
    a parameter. */
module SitesTab {
  import opened Wrappers
  import opened JsText
  import opened Json
  import opened Seqs
  import opened TabList

  /** The form's properties, in the order of the form object. The dialogs have no control for
      the status: it is the one loaded with the site, or "active" in a fresh form. */
  datatype Form = Form(
    name: Option<Json>,
    region: Option<Json>,
    manager: Option<Json>,
    capacity: Option<Json>,
    status: Option<Json>)

  const Keys: seq<string> := ["name", "region", "manager", "capacity", "status"]

  /** The form object as key/value pairs, keyed by `Keys`. */
  function Pairs(form: Form): (r: seq<(string, Option<Json>)>)
    ensures KeysOf(r) == Keys
  {
    [("name", form.name), ("region", form.region), ("manager", form.manager), ("capacity", form.capacity),
     ("status", form.status)]
  }

  /** The form the tab starts with and returns to after an add. */
  const Blank: Form := Form(Some(Str("")), Some(Str("")), Some(Str("")), Some(Num(0.0)), Some(Str("active")))

  /** The tab's state: the list, the form and the site the edit or delete dialog is about. */
  datatype Tab = Tab(sites: seq<Row>, form: Form, selected: Option<Row>)

  /** The properties a new site gets besides its id and the form's, in the order of the literal. */
  function Defaults(today: string): (r: seq<(string, Option<Json>)>)
  {
    [("currentVisitors", Some(Num(0.0))), ("revenue", Some(Num(0.0))), ("rating", Some(Num(4.0))),
     ("openingDate", Some(Str(today))), ("latitude", Some(Num(0.0))), ("longitude", Some(Num(0.0)))]
  }

  /** The keys of a new site are distinct, and `id` is none of them. */
  lemma KeysDistinct(today: string)
    ensures forall i, j | 0 <= i < j < |Keys + KeysOf(Defaults(today))| ::
              (Keys + KeysOf(Defaults(today)))[i] != (Keys + KeysOf(Defaults(today)))[j]
    ensures "id" !in Keys + KeysOf(Defaults(today))
  {
    assert KeysOf(Defaults(today)) == ["currentVisitors", "revenue", "rating", "openingDate", "latitude", "longitude"];
  }

  /** `!formData.name || !formData.region || !formData.manager || formData.capacity === 0` refuses
      the add. */
  predicate Complete(form: Form) {
    Truthy(form.name) && Truthy(form.region) && Truthy(form.manager) && form.capacity != Some(Num(0.0))
  }

  /** `{ id: `site-${Date.now()}`, ...formData, currentVisitors: 0, ..., longitude: 0 }`. */
  function Open(form: Form, now: nat, today: string): Row {
    Overlay([("id", Str("site-" + NatText(now)))], Pairs(form) + Defaults(today))
  }

  /** The new site has the generated id, the form's values and the fixed starting values: no
      visitors, no revenue, a 4.0 rating, today's opening date and coordinates 0, 0. */
  lemma OpenFields(form: Form, now: nat, today: string)
    ensures Id(Open(form, now, today)) == Some(Str("site-" + NatText(now)))
    ensures Carries(Open(form, now, today), Pairs(form))
    ensures Carries(Open(form, now, today), Defaults(today))
    ensures forall k | k != "id" && k !in Keys + KeysOf(Defaults(today)) :: Get(Open(form, now, today), k) == None
  {
    var pairs := Pairs(form) + Defaults(today);
    var base: Row := [("id", Str("site-" + NatText(now)))];
    forall k ensures Get(base, k) == if k == "id" then Some(Str("site-" + NatText(now))) else None {
      GetOfOne("id", Str("site-" + NatText(now)), k);
    }
    KeysDistinct(today);
    assert KeysOf(pairs) == Keys + KeysOf(Defaults(today));
    OverlayDistinct(base, pairs);
    assert forall j | 0 <= j < |Keys| :: pairs[j] == Pairs(form)[j];
    assert forall j | 0 <= j < |Defaults(today)| :: pairs[|Keys| + j] == Defaults(today)[j];
  }

  /** `handleAddSite`: an incomplete form changes nothing; otherwise one site is appended and the
      form is reset. */
  function AddSite(tab: Tab, now: nat, today: string): (r: Tab)
    ensures !Complete(tab.form) ==> r == tab
    ensures Complete(tab.form) ==> |r.sites| == |tab.sites| + 1
    ensures Complete(tab.form) ==> r.sites[..|tab.sites|] == tab.sites
    ensures Complete(tab.form) ==> Carries(r.sites[|tab.sites|], Pairs(tab.form))
    ensures Complete(tab.form) ==> Carries(r.sites[|tab.sites|], Defaults(today))
    ensures Complete(tab.form) ==> Id(r.sites[|tab.sites|]) == Some(Str("site-" + NatText(now)))
    ensures Complete(tab.form) ==> r.form == Blank && r.selected == tab.selected
  {
    if !Complete(tab.form) then tab
    else
      OpenFields(tab.form, now, today);
      var created := Open(tab.form, now, today);
      assert (tab.sites + [created])[..|tab.sites|] == tab.sites;
      tab.(sites := tab.sites + [created], form := Blank)
  }

  /** `openEditDialog`: select the site and load its five properties into the form. */
  function OpenEdit(tab: Tab, site: Row): (r: Tab)
    ensures r.sites == tab.sites && r.selected == Some(site)
    ensures Carries(site, Pairs(r.form))
  {
    var form := Form(Get(site, "name"), Get(site, "region"), Get(site, "manager"), Get(site, "capacity"),
                     Get(site, "status"));
    tab.(selected := Some(site), form := form)
  }

  /** The dialogs' inputs: they set the name, region, manager and capacity, never the status. */
  function Input(form: Form, name: Option<Json>, region: Option<Json>, manager: Option<Json>,
                 capacity: Option<Json>): (r: Form)
    ensures r.status == form.status
  {
    form.(name := name, region := region, manager := manager, capacity := capacity)
  }

  /** The delete button: select the site the confirmation is about. */
  function AskDelete(tab: Tab, site: Row): (r: Tab)
    ensures r.sites == tab.sites && r.form == tab.form && r.selected == Some(site)
  {
    tab.(selected := Some(site))
  }

  /** `handleEditSite`: with no selection nothing changes; otherwise every site with the selected
      id takes the form's values and keeps its other properties, every other site is untouched,
      and the selection is cleared. */
  function EditSite(tab: Tab): (r: Tab)
    ensures tab.selected.None? ==> r == tab
    ensures tab.selected.Some? ==> r.selected.None? && r.form == tab.form
    ensures |r.sites| == |tab.sites|
    ensures forall i | 0 <= i < |tab.sites| && (tab.selected.None? || Id(tab.sites[i]) != Id(tab.selected.value))
              :: r.sites[i] == tab.sites[i]
    ensures tab.selected.Some? ==>
              forall i | 0 <= i < |tab.sites| && Id(tab.sites[i]) == Id(tab.selected.value) ::
                Carries(r.sites[i], Pairs(tab.form)) &&
                (forall k | k !in Keys :: Get(r.sites[i], k) == Get(tab.sites[i], k))
  {
    match tab.selected
    case None => tab
    case Some(chosen) =>
      var edited := UpdateWhere(tab.sites, Id(chosen), (s: Row) => Overlay(s, Pairs(tab.form)));
      forall i | 0 <= i < |tab.sites| && Id(tab.sites[i]) == Id(chosen)
        ensures Carries(edited[i], Pairs(tab.form))
        ensures forall k | k !in Keys :: Get(edited[i], k) == Get(tab.sites[i], k)
      {
        OverlayDistinct(tab.sites[i], Pairs(tab.form));
      }
      Tab(edited, tab.form, None)
  }

  /** `handleDeleteSite`: with no selection nothing changes; otherwise exactly the sites with the
      selected id go, the rest stay in order, and the selection is cleared. */
  function DeleteSite(tab: Tab): (r: Tab)
    ensures tab.selected.None? ==> r == tab
    ensures tab.selected.Some? ==> r.selected.None? && r.form == tab.form
    ensures tab.selected.Some? ==> r.sites == RemoveWhere(tab.sites, Id(tab.selected.value))
    ensures tab.selected.Some? ==>
              forall i | 0 <= i < |tab.sites| ::
                tab.sites[i] in r.sites <==> Id(tab.sites[i]) != Id(tab.selected.value)
  {
    match tab.selected
    case None => tab
    case Some(chosen) =>
      RemoveWhereExact(tab.sites, Id(chosen));
      Tab(RemoveWhere(tab.sites, Id(chosen)), tab.form, None)
  }

  /** `handleCloseSite`: every site with the given site's id gets status "closed" and keeps every
      other property; the other sites, the form and the selection are untouched. */
  function CloseSite(tab: Tab, site: Row): (r: Tab)
    ensures r.form == tab.form && r.selected == tab.selected
    ensures |r.sites| == |tab.sites|
    ensures forall i | 0 <= i < |tab.sites| && Id(tab.sites[i]) != Id(site) :: r.sites[i] == tab.sites[i]
    ensures forall i | 0 <= i < |tab.sites| && Id(tab.sites[i]) == Id(site) ::
              Get(r.sites[i], "status") == Some(Str("closed")) &&
              (forall k | k != "status" :: Get(r.sites[i], k) == Get(tab.sites[i], k))
  {
    tab.(sites := UpdateWhere(tab.sites, Id(site), (s: Row) => Put(s, "status", Str("closed"))))
  }

  /** The close button is shown only for a site whose status is "active". */
  predicate CloseOffered(site: Row) {
    Get(site, "status") == Some(Str("active"))
  }

  /** The label of a status: "Actif", "Maintenance", and "Fermé" for anything else. */
  function StatusLabel(status: Option<Json>): (r: string)
    ensures r == "Actif" <==> status == Some(Str("active"))
    ensures r == "Maintenance" <==> status == Some(Str("maintenance"))
    ensures r == "Fermé" <==> status != Some(Str("active")) && status != Some(Str("maintenance"))
  {
    if status == Some(Str("active")) then "Actif"
    else if status == Some(Str("maintenance")) then "Maintenance"
    else "Fermé"
  }

  /** A site that was offered the close button and closed no longer offers it, and its label
      reads "Fermé". */
  lemma ClosedSiteLabel(tab: Tab, i: nat)
    requires i < |tab.sites| && CloseOffered(tab.sites[i])
    ensures !CloseOffered(CloseSite(tab, tab.sites[i]).sites[i])
    ensures StatusLabel(Get(CloseSite(tab, tab.sites[i]).sites[i], "status")) == "Fermé"
  {
  }

  /** Editing after opening the dialog and changing only the inputs keeps the status each edited
      site had when the dialog opened; with a site unique by id, saving without changes leaves the
      list exactly as it was. */
  lemma EditKeepsStatus(tab: Tab, site: Row, name: Option<Json>, region: Option<Json>,
                        manager: Option<Json>, capacity: Option<Json>)
    ensures var loaded := OpenEdit(tab, site);
            var r := EditSite(loaded.(form := Input(loaded.form, name, region, manager, capacity)));
            forall i | 0 <= i < |tab.sites| && Id(tab.sites[i]) == Id(site) ::
              Get(r.sites[i], "status") == Get(site, "status")
  {
    var loaded := OpenEdit(tab, site);
    var form := Input(loaded.form, name, region, manager, capacity);
    assert Pairs(form)[4] == ("status", Get(site, "status"));
  }

  /** Opening the edit dialog and saving without touching the form leaves the list exactly as it
      was, when every site sharing the id is the opened one. */
  lemma SaveUnchanged(tab: Tab, site: Row)
    requires forall i | 0 <= i < |tab.sites| && Id(tab.sites[i]) == Id(site) :: tab.sites[i] == site
    ensures EditSite(OpenEdit(tab, site)).sites == tab.sites
  {
    var loaded := OpenEdit(tab, site);
    OverlayKeeps(site, Pairs(loaded.form));
    var r := EditSite(loaded);
    assert forall i | 0 <= i < |tab.sites| :: r.sites[i] == tab.sites[i];
  }

  /** Deleting a site just added, when its generated id was new, gives back the list from before
      the add. */
  lemma DeleteUndoesAdd(tab: Tab, now: nat, today: string)
    requires Complete(tab.form)
    requires forall i | 0 <= i < |tab.sites| :: Id(tab.sites[i]) != Some(Str("site-" + NatText(now)))
    ensures var added := AddSite(tab, now, today);
            DeleteSite(AskDelete(added, added.sites[|tab.sites|])).sites == tab.sites
  {
    OpenFields(tab.form, now, today);
    RemoveAppended(tab.sites, Open(tab.form, now, today));
  }
}
