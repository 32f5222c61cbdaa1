/** The instructions tab (components/dashboard/tabs/instructions-tab.tsx): creating an instruction
    for all sites or for the selected ones, and the line that names its sites. Sites are JSON
    objects; each of the three clock readings of a creation is a parameter of its own. */
module InstructionsTab {
  import opened Wrappers
  import opened JsText
  import opened Json
  import opened Seqs
  import opened TabList

  datatype Priority = Urgent | Normal | Info

  /** An instruction. Its site lists hold each target's `id`, `name` and `manager`, undefined where
      the site lacks it; dates are milliseconds since the epoch. */
  datatype Instruction = Instruction(
    id: string,
    siteIds: seq<Option<Json>>,
    siteNames: seq<Option<Json>>,
    managers: seq<Option<Json>>,
    title: string,
    content: string,
    priority: Priority,
    status: string,
    createdAt: nat,
    dueDate: nat,
    createdBy: string)

  /** The tab's state: the instructions, newest first, and the creation form. */
  datatype Tab = Tab(
    instructions: seq<Instruction>,
    chosen: seq<Option<Json>>,
    sendToAll: bool,
    title: string,
    content: string,
    priority: Priority,
    showForm: bool)

  /** A week in milliseconds, the time an instruction is given. */
  const Week: nat := 7 * 24 * 60 * 60 * 1000

  /** `[sites[0]?.id || ""]`: the selection the form starts with. */
  function FirstChoice(sites: seq<Row>): (r: seq<Option<Json>>)
    ensures |r| == 1
    ensures |sites| > 0 && Truthy(Id(sites[0])) ==> r[0] == Id(sites[0])
    ensures !(|sites| > 0 && Truthy(Id(sites[0]))) ==> r[0] == Some(Str(""))
  {
    if |sites| > 0 && Truthy(Id(sites[0])) then [Id(sites[0])] else [Some(Str(""))]
  }

  /** The tab as it first renders. */
  function Initial(sites: seq<Row>): Tab {
    Tab([], FirstChoice(sites), false, "", "", Normal, false)
  }

  /** Ticking a site's box adds its id to the selection; unticking removes every copy of it. */
  function Tick(tab: Tab, site: Row, checked: bool): (r: Tab)
    ensures checked ==> Id(site) in r.chosen
    ensures !checked ==> Id(site) !in r.chosen
    ensures forall v | v != Id(site) :: v in r.chosen <==> v in tab.chosen
  {
    if checked then tab.(chosen := tab.chosen + [Id(site)])
    else
      FilterMembers(tab.chosen, (v: Option<Json>) => v != Id(site));
      tab.(chosen := Filter(tab.chosen, (v: Option<Json>) => v != Id(site)))
  }

  /** The sites an instruction goes to: all of them, or those whose id is selected, in the order
      of the site list. */
  function Targets(sites: seq<Row>, sendToAll: bool, chosen: seq<Option<Json>>): (r: seq<Row>)
    ensures sendToAll ==> r == sites
    ensures forall i | 0 <= i < |r| :: r[i] in sites
    ensures forall i | 0 <= i < |sites| :: sites[i] in r <==> sendToAll || Id(sites[i]) in chosen
  {
    if sendToAll then sites
    else
      FilterMembers(sites, (s: Row) => Id(s) in chosen);
      Filter(sites, (s: Row) => Id(s) in chosen)
  }

  /** One property of every target, in order (`targetSites.map((s) => s.key)`). */
  function Column(targets: seq<Row>, key: string): (r: seq<Option<Json>>)
    ensures |r| == |targets|
    ensures forall j | 0 <= j < |targets| :: r[j] == Get(targets[j], key)
  {
    seq(|targets|, j requires 0 <= j < |targets| => Get(targets[j], key))
  }

  /** `!title.trim() || !content.trim()` refuses the creation. */
  predicate Filled(tab: Tab) {
    Trim(tab.title) != "" && Trim(tab.content) != ""
  }

  /** `handleCreateInstruction`: a blank title or content, or no target, changes nothing; otherwise
      the new instruction goes to the front and the form is reset. The new instruction lists its
      targets' ids, names and managers in parallel, in the order of the site list; it keeps the
      untrimmed title and content and the chosen priority, is "nouveau" and comes from "PDG". The
      handler reads the clock three times: `Date.now()` for the id, `new Date()` for the creation
      time and `Date.now()` again for the due date, one week after that third reading. */
  function Create(tab: Tab, sites: seq<Row>, idClock: nat, created: nat, dueClock: nat): (r: Tab)
    ensures !Filled(tab) || Targets(sites, tab.sendToAll, tab.chosen) == [] ==> r == tab
    ensures Filled(tab) && Targets(sites, tab.sendToAll, tab.chosen) != [] ==>
              |r.instructions| == |tab.instructions| + 1 && r.instructions[1..] == tab.instructions
    ensures Filled(tab) && Targets(sites, tab.sendToAll, tab.chosen) != [] ==>
              r.title == "" && r.content == "" && r.priority == Normal && r.chosen == FirstChoice(sites) &&
              !r.sendToAll && !r.showForm
    ensures Filled(tab) && Targets(sites, tab.sendToAll, tab.chosen) != [] ==>
              var made := r.instructions[0];
              var targets := Targets(sites, tab.sendToAll, tab.chosen);
              && made.id == "instr-" + NatText(idClock)
              && |made.siteIds| == |made.siteNames| == |made.managers| == |targets|
              && (forall j | 0 <= j < |targets| ::
                    made.siteIds[j] == Id(targets[j]) && made.siteNames[j] == Get(targets[j], "name") &&
                    made.managers[j] == Get(targets[j], "manager"))
              && made.title == tab.title && made.content == tab.content && made.priority == tab.priority
              && made.status == "nouveau" && made.createdBy == "PDG"
              && made.createdAt == created && made.dueDate == dueClock + 604800000
  {
    var targets := Targets(sites, tab.sendToAll, tab.chosen);
    if !Filled(tab) || targets == [] then tab
    else
      var made := Instruction("instr-" + NatText(idClock), Column(targets, "id"), Column(targets, "name"),
                              Column(targets, "manager"), tab.title, tab.content, tab.priority, "nouveau",
                              created, dueClock + Week, "PDG");
      assert ([made] + tab.instructions)[1..] == tab.instructions;
      Tab([made] + tab.instructions, FirstChoice(sites), false, "", "", Normal, false)
  }

  /** Only when the clock does not run backwards between the second and third readings is the
      instruction due at least one week after its creation time. */
  lemma DueAfterCreation(tab: Tab, sites: seq<Row>, idClock: nat, created: nat, dueClock: nat)
    requires Filled(tab) && Targets(sites, tab.sendToAll, tab.chosen) != []
    ensures var made := Create(tab, sites, idClock, created, dueClock).instructions[0];
            made.dueDate >= made.createdAt + Week <==> created <= dueClock
  {
  }

  /** `names.join(", ")`: undefined and null names show as empty text. */
  function NameList(names: seq<Option<Json>>, fmt: NumberFormat): string {
    Join(seq(|names|, j requires 0 <= j < |names| => if names[j].None? then "" else ElementText(names[j].value, fmt)),
         ", ")
  }

  /** The line under an instruction's title: "Tous les sites" when it names as many sites as there
      are, otherwise its site names. */
  function SitesLine(instruction: Instruction, sites: seq<Row>, fmt: NumberFormat): string {
    if |instruction.siteNames| == |sites| then "Tous les sites" else NameList(instruction.siteNames, fmt)
  }

  /** An instruction sent to all sites reads "Tous les sites" while the site list is unchanged. */
  lemma SentToAllLine(tab: Tab, sites: seq<Row>, idClock: nat, created: nat, dueClock: nat, fmt: NumberFormat)
    requires Filled(tab) && tab.sendToAll && sites != []
    ensures SitesLine(Create(tab, sites, idClock, created, dueClock).instructions[0], sites, fmt) == "Tous les sites"
  {
  }

  /** An instruction sent to a selection that leaves out some site names fewer sites than exist,
      so its line lists the names instead. */
  lemma PartialLine(tab: Tab, sites: seq<Row>, idClock: nat, created: nat, dueClock: nat, fmt: NumberFormat, i: nat)
    requires Filled(tab) && !tab.sendToAll && Targets(sites, false, tab.chosen) != []
    requires i < |sites| && Id(sites[i]) !in tab.chosen
    ensures var made := Create(tab, sites, idClock, created, dueClock).instructions[0];
            SitesLine(made, sites, fmt) == NameList(made.siteNames, fmt)
    ensures |Create(tab, sites, idClock, created, dueClock).instructions[0].siteNames| < |sites|
  {
    var p := (s: Row) => Id(s) in tab.chosen;
    var q := (s: Row) => Id(s) !in tab.chosen;
    FilterComplement(sites, p, q);
    FilterMembers(sites, q);
    assert sites[i] in Filter(sites, q);
  }
}
