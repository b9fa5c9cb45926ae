/** `renderDetailItem`, `renderSkills` and `renderTactics`: the fragment and
    the document title written for one selected item.

    The fragment is described twice. `Blocks` lists the blocks the page is
    made of, in order, each with the fields it shows; `Html` prints one block
    from named constant pieces (the whitespace inside the script's template
    literals is left out), and `Page` joins them. `RenderDetailItem` builds the
    same string the way the script does, with `+=` and a loop over the
    sections. Nothing is escaped, as in the script. */
module Render {
  import opened Wrappers
  import opened JsText
  import opened Catalog
  import opened Markup

  const ImgBasePath := "../assets/images/skills/"
  const SiteTitle := "War Inc Rising - "

  const HeaderOpen := "<h1 id=\"item-title\">"
  const HeaderClose := "</h1>"
  const SubtitleOpen := "<p class=\"note\" style=\"text-align: center; color: #cc0000; font-weight: bold;\">"
  const SubtitleClose := "</p>"
  const ImageOpen := "<div class=\"image-container\"><img src=\""
  const ImageAlt := "\" alt=\""
  const ImageClose := "主視覺\"></div>"
  const DividerHtml := "<hr>"
  const StatsOpen := "<h2>🛡️ 基礎屬性</h2><div class=\"stats-table\"><table>"
  const StatsClose := "</table></div>"
  const CostOpen := "<h2>💰 建造費用</h2><p>"
  const CostClose := "</p>"
  const RulesOpen := "<h2>📝 玩法規則</h2><ul>"
  const DetailsOpen := "<h2>📘 詳細說明</h2><ul>"
  const ListClose := "</ul>"
  const SectionsOpen := "<h2>"
  const SectionsColon := "："
  const SectionsClose := "</h2>"
  const SkillsHeading := "<h2>🔥 技能一覽 (Skill Overview)</h2>"
  const SkillOpen := "<div class=\"skill-section\"><div class=\"skill-info\"><div class=\"skill-detail\"><h3>"
  const SkillEffect := "]</h3><p>**效果:** "
  const SkillTable := "</p><table>"
  const SkillShot := "</table></div></div><div class=\"skill-screenshot\"><img src=\""
  const SkillClose := "技能截圖\"></div></div>"
  const TacticsHeading := "<h2>💡 戰術定位與建議 (Tactical Analysis)</h2>"
  const TacticsOpen := "<p>核心戰術建議如下：</p><ul>"

  const Categories: set<string> := {"characters", "units", "buildings", "modes", "guides"}

  /** The blocks of a detail page, in the order the page shows them. */
  datatype Block =
    | Header(icon: string, title: string, subtitle: string)
    | Image(file: string, name: string)
    | Divider
    | StatsTable(rows: seq<Stat>)
    | CostNote(text: string)
    | RuleList(rules: seq<string>)
    | DetailList(details: seq<string>)
    | SectionList(name: string, content: string, sections: seq<Section>)
    | SkillOverview(skills: seq<Skill>)
    | TacticList(tips: seq<string>)

  /** A block's position in the fixed layout. */
  function Rank(b: Block): nat
  {
    match b
    case Header(_, _, _) => 0
    case Image(_, _) => 1
    case Divider => 2
    case StatsTable(_) => 3
    case CostNote(_) => 4
    case RuleList(_) => 5
    case DetailList(_) => 6
    case SectionList(_, _, _) => 7
    case SkillOverview(_) => 8
    case TacticList(_) => 9
  }

  /** The decorative glyph for a category; unmapped categories get none. */
  function Icon(category: string): (icon: string)
    ensures icon != "" <==> category in Categories
  {
    if category == "characters" then "🐉"
    else if category == "units" then "🛡️"
    else if category == "buildings" then "🏛️"
    else if category == "modes" then "🎮"
    else if category == "guides" then "📚"
    else ""
  }

  /** The glyph map is one-to-one on the categories it maps. */
  lemma IconsDistinct(a: string, b: string)
    requires a in Categories && b in Categories && a != b
    ensures Icon(a) != Icon(b)
  {
  }

  /** `item.name_en ? `${item.name_zh} (${item.name_en})` : item.name_zh` */
  function MainTitle(item: Item): string
  {
    if Truthy(item.nameEn) then Interp(item.nameZh) + " (" + item.nameEn.value + ")"
    else Interp(item.nameZh)
  }

  /** `War Inc Rising - ${item.name_zh || item.id}` */
  function PageTitle(item: Item): string
  {
    SiteTitle + Interp(Or(item.nameZh, item.id))
  }

  /** The title is the site name followed by the Chinese name when it is
      non-empty, otherwise by the id. */
  lemma TitleFormula(item: Item)
    ensures |PageTitle(item)| >= |SiteTitle| && PageTitle(item)[..|SiteTitle|] == SiteTitle
    ensures Truthy(item.nameZh) ==> PageTitle(item)[|SiteTitle|..] == item.nameZh.value
    ensures !Truthy(item.nameZh) ==> PageTitle(item)[|SiteTitle|..] == Interp(item.id)
  {
  }

  /** The header's first line is the Chinese name, followed by the English
      name in parentheses when that is non-empty. */
  lemma MainTitleFormula(item: Item)
    ensures !Truthy(item.nameEn) ==> MainTitle(item) == Interp(item.nameZh)
    ensures Truthy(item.nameEn) ==> MainTitle(item) == Interp(item.nameZh) + " (" + item.nameEn.value + ")"
  {
  }

  /** The page opens with the header: the category's icon, the main title,
      and the role, or the description when the role is empty or missing. */
  lemma HeaderFormula(item: Item, category: string)
    ensures Blocks(item, category)[0] == Header(
      Icon(category),
      if Truthy(item.nameEn) then Interp(item.nameZh) + " (" + item.nameEn.value + ")" else Interp(item.nameZh),
      if Truthy(item.role) then item.role.value else Interp(item.description))
  {
  }

  /** `renderSkills`: one sub-block per skill, in input order. */
  function SkillHtml(s: Skill): string
  {
    SkillOpen + s.nameZh + " (" + s.nameEn + ") - [" + s.kind + SkillEffect + s.effect
    + SkillTable + MapJoin(s.details, StatRow)
    + SkillShot + ImgBasePath + s.icon + ImageAlt + s.nameZh + SkillClose
  }

  /** One skill's fragment opens with its name line (`name_zh (name_en) - [type]`)
      and its effect, closes with its icon image, and between them holds the
      details table, which reads back as the skill's details, one row each. */
  lemma SkillReadBack(s: Skill)
    requires forall d :: d in s.details ==> PlainText(d.caption) && PlainText(d.value)
    ensures var h := SkillHtml(s);
      var lead := SkillOpen + s.nameZh + " (" + s.nameEn + ") - [" + s.kind + SkillEffect + s.effect + SkillTable;
      var trail := SkillShot + ImgBasePath + s.icon + ImageAlt + s.nameZh + SkillClose;
      && |lead| + |trail| <= |h|
      && h[..|lead|] == lead
      && h[|h| - |trail|..] == trail
      && ReadRows(h[|lead|..|h| - |trail|]) == Some(s.details)
  {
    var lead := SkillOpen + s.nameZh + " (" + s.nameEn + ") - [" + s.kind + SkillEffect + s.effect + SkillTable;
    var trail := SkillShot + ImgBasePath + s.icon + ImageAlt + s.nameZh + SkillClose;
    var rows := MapJoin(s.details, StatRow);
    assert SkillHtml(s) == lead + rows + trail;
    Frame(lead, rows, trail);
    RowsRoundTrip(s.details);
  }

  function RenderSkills(skills: seq<Skill>): string
  {
    SkillsHeading + MapJoin(skills, SkillHtml)
  }

  /** The sub-block of the `k`-th skill follows the heading and the
      sub-blocks of the skills before it. */
  lemma SkillBlockAt(skills: seq<Skill>, k: nat)
    requires k < |skills|
    ensures OccursAt(RenderSkills(skills), SkillHtml(skills[k]),
                     |SkillsHeading| + |MapJoin(skills[..k], SkillHtml)|)
  {
    MapJoinOccursAt(SkillsHeading, skills, k, SkillHtml);
  }

  /** `renderTactics`: one list item per tip, in input order. */
  function RenderTactics(tips: seq<string>): string
  {
    TacticsHeading + TacticsOpen + MapJoin(tips, ListItem) + ListClose
  }

  /** A tactics fragment reads back as its tips. */
  lemma TacticsReadBack(tips: seq<string>)
    requires forall t :: t in tips ==> PlainText(t)
    ensures var r := RenderTactics(tips);
      var body := r[|TacticsHeading + TacticsOpen|..|r| - |ListClose|];
      ReadItems(body) == Some(tips)
  {
    var r := RenderTactics(tips);
    assert r[|TacticsHeading + TacticsOpen|..|r| - |ListClose|] == MapJoin(tips, ListItem);
    ItemsRoundTrip(tips);
  }

  function Html(b: Block): string
  {
    match b
    case Header(icon, title, subtitle) =>
      HeaderOpen + icon + " " + title + HeaderClose + SubtitleOpen + subtitle + SubtitleClose
    case Image(file, name) => ImageOpen + ImgBasePath + file + ImageAlt + name + ImageClose
    case Divider => DividerHtml
    case StatsTable(rows) => StatsOpen + MapJoin(rows, StatRow) + StatsClose
    case CostNote(text) => CostOpen + text + CostClose
    case RuleList(rules) => RulesOpen + MapJoin(rules, ListItem) + ListClose
    case DetailList(details) => DetailsOpen + MapJoin(details, ListItem) + ListClose
    case SectionList(name, content, sections) =>
      SectionsOpen + name + SectionsColon + content + SectionsClose + MapJoin(sections, SectionPair)
    case SkillOverview(skills) => RenderSkills(skills)
    case TacticList(tips) => RenderTactics(tips)
  }

  function Page(bs: seq<Block>): string
  {
    MapJoin(bs, Html)
  }

  /** Each optional block, as a sequence of zero or one block: present
      exactly when the field that drives it is truthy. */
  function ImagePart(item: Item): (bs: seq<Block>)
    ensures |bs| <= 1 && (|bs| == 1 <==> Truthy(Or(item.mainImage, item.icon)))
    ensures forall b :: b in bs ==> b.Image? && Or(item.mainImage, item.icon) == Some(b.file) && b.file != ""
  {
    var image := Or(item.mainImage, item.icon);
    if Truthy(image) then [Image(image.value, Interp(item.nameZh))] else []
  }

  function StatsPart(item: Item): (bs: seq<Block>)
    ensures |bs| <= 1 && (|bs| == 1 <==> item.stats.Some?)
    ensures forall b :: b in bs ==> b.StatsTable? && item.stats == Some(b.rows)
  {
    if item.stats.Some? then [StatsTable(item.stats.value)] else []
  }

  function CostPart(item: Item): (bs: seq<Block>)
    ensures |bs| <= 1 && (|bs| == 1 <==> Truthy(item.cost))
    ensures forall b :: b in bs ==> b.CostNote? && item.cost == Some(b.text) && b.text != ""
  {
    if Truthy(item.cost) then [CostNote(item.cost.value)] else []
  }

  function RulesPart(item: Item): (bs: seq<Block>)
    ensures |bs| <= 1 && (|bs| == 1 <==> item.rules.Some?)
    ensures forall b :: b in bs ==> b.RuleList? && item.rules == Some(b.rules)
  {
    if item.rules.Some? then [RuleList(item.rules.value)] else []
  }

  function DetailsPart(item: Item): (bs: seq<Block>)
    ensures |bs| <= 1 && (|bs| == 1 <==> item.details.Some?)
    ensures forall b :: b in bs ==> b.DetailList? && item.details == Some(b.details)
  {
    if item.details.Some? then [DetailList(item.details.value)] else []
  }

  function SectionsPart(item: Item): (bs: seq<Block>)
    ensures |bs| <= 1 && (|bs| == 1 <==> item.sections.Some?)
    ensures forall b :: b in bs ==> b.SectionList? && item.sections == Some(b.sections)
    ensures forall b :: b in bs ==> b.name == Interp(item.nameZh) && b.content == Interp(item.content)
  {
    if item.sections.Some? then [SectionList(Interp(item.nameZh), Interp(item.content), item.sections.value)] else []
  }

  function SkillsPart(item: Item): (bs: seq<Block>)
    ensures |bs| <= 1 && (|bs| == 1 <==> item.skills.Some?)
    ensures forall b :: b in bs ==> b.SkillOverview? && item.skills == Some(b.skills)
  {
    if item.skills.Some? then [SkillOverview(item.skills.value)] else []
  }

  function TacticsPart(item: Item): (bs: seq<Block>)
    ensures |bs| <= 1 && (|bs| == 1 <==> item.tactics.Some?)
    ensures forall b :: b in bs ==> b.TacticList? && item.tactics == Some(b.tips)
  {
    if item.tactics.Some? then [TacticList(item.tactics.value)] else []
  }

  function HeaderBlock(item: Item, category: string): Block
  {
    Header(Icon(category), MainTitle(item), Interp(Or(item.role, item.description)))
  }

  /** The blocks of `detailsHtml`: stats, cost, rules, details, sections. */
  function DetailBlocks(item: Item): seq<Block>
  {
    StatsPart(item) + CostPart(item) + RulesPart(item) + DetailsPart(item) + SectionsPart(item)
  }

  /** The header, the optional image and the divider. */
  function HeadBlocks(item: Item, category: string): seq<Block>
  {
    [HeaderBlock(item, category)] + ImagePart(item) + [Divider]
  }

  /** The skills and tactics fragments. */
  function TailBlocks(item: Item): seq<Block>
  {
    SkillsPart(item) + TacticsPart(item)
  }

  /** The whole fragment: header, optional image, divider, details, skills, tactics. */
  function Blocks(item: Item, category: string): seq<Block>
  {
    HeadBlocks(item, category) + DetailBlocks(item) + TailBlocks(item)
  }

  ghost predicate InLayoutOrder(bs: seq<Block>)
  {
    forall i, j :: 0 <= i < j < |bs| ==> Rank(bs[i]) < Rank(bs[j])
  }

  ghost predicate RanksWithin(bs: seq<Block>, lo: nat, hi: nat)
  {
    forall b :: b in bs ==> lo <= Rank(b) < hi
  }

  lemma OrderedConcat(a: seq<Block>, b: seq<Block>, lo: nat, mid: nat, hi: nat)
    requires lo <= mid <= hi
    requires InLayoutOrder(a) && RanksWithin(a, lo, mid)
    requires InLayoutOrder(b) && RanksWithin(b, mid, hi)
    ensures InLayoutOrder(a + b) && RanksWithin(a + b, lo, hi)
  {
  }

  lemma OrderedSlot(bs: seq<Block>, k: nat)
    requires |bs| <= 1 && forall b :: b in bs ==> Rank(b) == k
    ensures InLayoutOrder(bs) && RanksWithin(bs, k, k + 1)
  {
  }

  /** Blocks always appear in the fixed layout order: header, image, divider,
      stats, cost, rules, details, sections, skills, tactics. */
  lemma BlocksInOrder(item: Item, category: string)
    ensures InLayoutOrder(Blocks(item, category))
  {
    OrderedSlot([HeaderBlock(item, category)], 0);
    OrderedSlot(ImagePart(item), 1);
    OrderedSlot([Divider], 2);
    OrderedSlot(StatsPart(item), 3);
    OrderedSlot(CostPart(item), 4);
    OrderedSlot(RulesPart(item), 5);
    OrderedSlot(DetailsPart(item), 6);
    OrderedSlot(SectionsPart(item), 7);
    OrderedSlot(SkillsPart(item), 8);
    OrderedSlot(TacticsPart(item), 9);
    var head := [HeaderBlock(item, category)] + ImagePart(item);
    OrderedConcat([HeaderBlock(item, category)], ImagePart(item), 0, 1, 2);
    OrderedConcat(head, [Divider], 0, 2, 3);
    var d := StatsPart(item) + CostPart(item);
    OrderedConcat(StatsPart(item), CostPart(item), 3, 4, 5);
    OrderedConcat(d, RulesPart(item), 3, 5, 6);
    OrderedConcat(d + RulesPart(item), DetailsPart(item), 3, 6, 7);
    OrderedConcat(d + RulesPart(item) + DetailsPart(item), SectionsPart(item), 3, 7, 8);
    OrderedConcat(SkillsPart(item), TacticsPart(item), 8, 9, 10);
    OrderedConcat(HeadBlocks(item, category), DetailBlocks(item), 0, 3, 8);
    OrderedConcat(HeadBlocks(item, category) + DetailBlocks(item), TailBlocks(item), 0, 8, 10);
  }

  /** Every block of the page comes from the header, the divider or one of
      the optional parts. */
  lemma MemberOfBlocks(item: Item, category: string, b: Block)
    requires b in Blocks(item, category)
    ensures || b == HeaderBlock(item, category) || b == Divider || b in ImagePart(item)
            || b in StatsPart(item) || b in CostPart(item) || b in RulesPart(item)
            || b in DetailsPart(item) || b in SectionsPart(item)
            || b in SkillsPart(item) || b in TacticsPart(item)
  {
  }

  lemma PartsInBlocks(item: Item, category: string)
    ensures var bs := Blocks(item, category);
      && (forall b :: b in ImagePart(item) ==> b in bs)
      && (forall b :: b in StatsPart(item) ==> b in bs)
      && (forall b :: b in CostPart(item) ==> b in bs)
      && (forall b :: b in RulesPart(item) ==> b in bs)
      && (forall b :: b in DetailsPart(item) ==> b in bs)
      && (forall b :: b in SectionsPart(item) ==> b in bs)
      && (forall b :: b in SkillsPart(item) ==> b in bs)
      && (forall b :: b in TacticsPart(item) ==> b in bs)
  {
  }

  /** Each optional block is emitted exactly when its field is truthy: an
      empty array is truthy, an empty string is not. */
  lemma BlockPresence(item: Item, category: string)
    ensures var bs := Blocks(item, category);
      && ((exists b :: b in bs && b.Image?) <==> Truthy(Or(item.mainImage, item.icon)))
      && ((exists b :: b in bs && b.StatsTable?) <==> item.stats.Some?)
      && ((exists b :: b in bs && b.CostNote?) <==> Truthy(item.cost))
      && ((exists b :: b in bs && b.RuleList?) <==> item.rules.Some?)
      && ((exists b :: b in bs && b.DetailList?) <==> item.details.Some?)
      && ((exists b :: b in bs && b.SectionList?) <==> item.sections.Some?)
      && ((exists b :: b in bs && b.SkillOverview?) <==> item.skills.Some?)
      && ((exists b :: b in bs && b.TacticList?) <==> item.tactics.Some?)
  {
    BlockPayload(item, category);
    PartsInBlocks(item, category);
    if |ImagePart(item)| == 1 { assert ImagePart(item)[0] in ImagePart(item); }
    if |StatsPart(item)| == 1 { assert StatsPart(item)[0] in StatsPart(item); }
    if |CostPart(item)| == 1 { assert CostPart(item)[0] in CostPart(item); }
    if |RulesPart(item)| == 1 { assert RulesPart(item)[0] in RulesPart(item); }
    if |DetailsPart(item)| == 1 { assert DetailsPart(item)[0] in DetailsPart(item); }
    if |SectionsPart(item)| == 1 { assert SectionsPart(item)[0] in SectionsPart(item); }
    if |SkillsPart(item)| == 1 { assert SkillsPart(item)[0] in SkillsPart(item); }
    if |TacticsPart(item)| == 1 { assert TacticsPart(item)[0] in TacticsPart(item); }
  }

  /** An emitted block carries its field's value unchanged: the stats table
      has one row per stat, each list one item per element, the sections one
      pair per section, all in input order. */
  lemma BlockPayload(item: Item, category: string)
    ensures var bs := Blocks(item, category);
      && (forall b :: b in bs && b.Image? ==> Or(item.mainImage, item.icon) == Some(b.file) && b.file != "")
      && (forall b :: b in bs && b.StatsTable? ==> item.stats == Some(b.rows))
      && (forall b :: b in bs && b.CostNote? ==> item.cost == Some(b.text) && b.text != "")
      && (forall b :: b in bs && b.RuleList? ==> item.rules == Some(b.rules))
      && (forall b :: b in bs && b.DetailList? ==> item.details == Some(b.details))
      && (forall b :: b in bs && b.SectionList? ==>
            item.sections == Some(b.sections) && b.name == Interp(item.nameZh) && b.content == Interp(item.content))
      && (forall b :: b in bs && b.SkillOverview? ==> item.skills == Some(b.skills))
      && (forall b :: b in bs && b.TacticList? ==> item.tactics == Some(b.tips))
  {
    forall b | b in Blocks(item, category)
      ensures || b == HeaderBlock(item, category) || b == Divider || b in ImagePart(item)
              || b in StatsPart(item) || b in CostPart(item) || b in RulesPart(item)
              || b in DetailsPart(item) || b in SectionsPart(item)
              || b in SkillsPart(item) || b in TacticsPart(item)
    {
      MemberOfBlocks(item, category, b);
    }
  }

  /** The header and the divider are always emitted, the header first. */
  lemma HeaderAlwaysFirst(item: Item, category: string)
    ensures var bs := Blocks(item, category);
      |bs| >= 2 && bs[0] == HeaderBlock(item, category) && Divider in bs
  {
  }

  /** The image block uses `main_image` when it is non-empty, otherwise
      `icon`; with neither there is no image block. */
  lemma ImagePreference(item: Item, category: string)
    ensures var image := Image(if Truthy(item.mainImage) then item.mainImage.value
                               else Interp(item.icon), Interp(item.nameZh));
      Truthy(item.mainImage) || Truthy(item.icon) ==> Blocks(item, category)[1] == image
    ensures !Truthy(item.mainImage) && !Truthy(item.icon) ==>
      forall b :: b in Blocks(item, category) ==> !b.Image?
  {
  }

  lemma PageOfPart(bs: seq<Block>)
    requires |bs| <= 1
    ensures Page(bs) == if |bs| == 1 then Html(bs[0]) else ""
  {
    if |bs| == 1 {
      assert bs == [bs[0]];
      MapJoinSingle(bs[0], Html);
    }
  }

  lemma MapJoinSnoc<T>(xs: seq<T>, x: T, f: T -> string)
    ensures MapJoin(xs + [x], f) == MapJoin(xs, f) + f(x)
  {
    MapJoinAppend(xs, [x], f);
    MapJoinSingle(x, f);
  }

  /** The HTML of an optional part: its block's, or nothing. */
  function PartHtml(part: seq<Block>): string
  {
    if |part| == 1 then Html(part[0]) else ""
  }

  lemma DetailsLayout(item: Item)
    ensures Page(DetailBlocks(item))
      == PartHtml(StatsPart(item)) + PartHtml(CostPart(item)) + PartHtml(RulesPart(item))
      + PartHtml(DetailsPart(item)) + PartHtml(SectionsPart(item))
  {
    var p3, p4, p5, p6, p7 := StatsPart(item), CostPart(item), RulesPart(item), DetailsPart(item), SectionsPart(item);
    PageOfPart(p3);
    PageStep(p3, p4);
    PageStep(p3 + p4, p5);
    PageStep(p3 + p4 + p5, p6);
    PageStep(p3 + p4 + p5 + p6, p7);
  }

  lemma PageStep(bs: seq<Block>, part: seq<Block>)
    requires |part| <= 1
    ensures Page(bs + part) == Page(bs) + PartHtml(part)
  {
    MapJoinAppend(bs, part, Html);
    PageOfPart(part);
  }

  /** The part of the `outputHtml` template before `detailsHtml`: the
      header, the image when `main_image || icon` is truthy, the divider. */
  function HeadHtml(item: Item, category: string): string
  {
    var image := Or(item.mainImage, item.icon);
    Html(Header(Icon(category), MainTitle(item), Interp(Or(item.role, item.description))))
    + (if Truthy(image) then ImageOpen + ImgBasePath + image.value + ImageAlt + Interp(item.nameZh) + ImageClose else "")
    + DividerHtml
  }

  /** The part of the template after `detailsHtml`: the skills and tactics
      fragments when those arrays are present. */
  function TailHtml(item: Item): string
  {
    (if item.skills.Some? then RenderSkills(item.skills.value) else "")
    + (if item.tactics.Some? then RenderTactics(item.tactics.value) else "")
  }

  /** The `outputHtml` template around a given `detailsHtml`. */
  function OutputHtml(item: Item, category: string, detailsHtml: string): string
  {
    HeadHtml(item, category) + detailsHtml + TailHtml(item)
  }

  lemma HeadLayout(item: Item, category: string)
    ensures Page(HeadBlocks(item, category)) == HeadHtml(item, category)
  {
    var header := HeaderBlock(item, category);
    MapJoinSingle(header, Html);
    PageStep([header], ImagePart(item));
    PageStep([header] + ImagePart(item), [Divider]);
  }

  lemma TailLayout(item: Item)
    ensures Page(TailBlocks(item)) == TailHtml(item)
  {
    PageOfPart(SkillsPart(item));
    PageStep(SkillsPart(item), TacticsPart(item));
  }

  /** The fragment is the header, optional image and divider, then the
      details, then the optional skills and tactics fragments. */
  lemma PageLayout(item: Item, category: string)
    ensures Page(Blocks(item, category)) == OutputHtml(item, category, Page(DetailBlocks(item)))
  {
    var head, details, tail := HeadBlocks(item, category), DetailBlocks(item), TailBlocks(item);
    MapJoinAppend(head, details, Html);
    MapJoinAppend(head + details, tail, Html);
    HeadLayout(item, category);
    TailLayout(item);
  }

  /** `if (item.stats) detailsHtml += ...`: the stats table, one row per stat. */
  method AppendStats(detailsHtml: string, item: Item) returns (r: string)
    ensures r == detailsHtml + PartHtml(StatsPart(item))
  {
    r := detailsHtml;
    if item.stats.Some? {
      var statsTable := MapJoin(item.stats.value, StatRow);
      r := r + (StatsOpen + statsTable + StatsClose);
    }
  }

  /** `if (item.cost) detailsHtml += ...`: the cost paragraph. */
  method AppendCost(detailsHtml: string, item: Item) returns (r: string)
    ensures r == detailsHtml + PartHtml(CostPart(item))
  {
    r := detailsHtml;
    if Truthy(item.cost) {
      r := r + (CostOpen + item.cost.value + CostClose);
    }
  }

  /** `if (item.rules) detailsHtml += ...`: the rules list. */
  method AppendRules(detailsHtml: string, item: Item) returns (r: string)
    ensures r == detailsHtml + PartHtml(RulesPart(item))
  {
    r := detailsHtml;
    if item.rules.Some? {
      var rulesList := MapJoin(item.rules.value, ListItem);
      r := r + (RulesOpen + rulesList + ListClose);
    }
  }

  /** `if (item.details) detailsHtml += ...`: the details list. */
  method AppendDetails(detailsHtml: string, item: Item) returns (r: string)
    ensures r == detailsHtml + PartHtml(DetailsPart(item))
  {
    r := detailsHtml;
    if item.details.Some? {
      var detailsList := MapJoin(item.details.value, ListItem);
      r := r + (DetailsOpen + detailsList + ListClose);
    }
  }

  /** `if (item.sections) ...`: the heading, then the `forEach` loop. */
  method AppendSections(detailsHtml: string, item: Item) returns (r: string)
    ensures r == detailsHtml + PartHtml(SectionsPart(item))
  {
    r := detailsHtml;
    if item.sections.Some? {
      var heading := SectionsOpen + Interp(item.nameZh) + SectionsColon + Interp(item.content) + SectionsClose;
      r := r + heading;
      r := AppendSectionPairs(r, item.sections.value);
      Assoc(detailsHtml, heading, MapJoin(item.sections.value, SectionPair));
    }
  }

  /** The `item.sections.forEach` loop: one `<h3>`/`<p>` pair per section,
      in order, appended to `detailsHtml`. */
  method AppendSectionPairs(detailsHtml: string, sections: seq<Section>) returns (r: string)
    ensures r == detailsHtml + MapJoin(sections, SectionPair)
  {
    r := detailsHtml;
    var i := 0;
    while i < |sections|
      invariant 0 <= i <= |sections|
      invariant r == detailsHtml + MapJoin(sections[..i], SectionPair)
    {
      var pair := SectionOpen + sections[i].title + SectionMid + sections[i].text + SectionClose;
      MapJoinSnoc(sections[..i], sections[i], SectionPair);
      assert sections[..i + 1] == sections[..i] + [sections[i]];
      Assoc(detailsHtml, MapJoin(sections[..i], SectionPair), pair);
      r := r + pair;
      i := i + 1;
    }
    assert sections[..i] == sections;
  }

  /** `renderDetailItem`: `detailsHtml` is accumulated block by block; the
      result is the fragment `Page(Blocks(...))` and the title `PageTitle(item)`. */
  method RenderDetailItem(item: Item, category: string) returns (html: string, title: string)
    ensures html == Page(Blocks(item, category))
    ensures title == PageTitle(item)
  {
    var detailsHtml := "";
    detailsHtml := AppendStats(detailsHtml, item);
    detailsHtml := AppendCost(detailsHtml, item);
    detailsHtml := AppendRules(detailsHtml, item);
    detailsHtml := AppendDetails(detailsHtml, item);
    detailsHtml := AppendSections(detailsHtml, item);
    assert "" + PartHtml(StatsPart(item)) == PartHtml(StatsPart(item));
    DetailsLayout(item);
    assert detailsHtml == Page(DetailBlocks(item));

    html := OutputHtml(item, category, detailsHtml);
    title := SiteTitle + Interp(Or(item.nameZh, item.id));
    PageLayout(item, category);
  }
}
