/** The data file's records: a catalog maps each category name to its
    ordered sequence of items. Top-level item fields are optional, as in the
    JSON; nested record fields are taken as the text they print as. */
module Catalog {
  import opened Wrappers

  /** A `{label, value}` row (the JSON `label` is `caption` here), used by
      `stats` and by a skill's `details`. */
  datatype Stat = Stat(caption: string, value: string)

  /** A `{title, text}` entry of a guide's `sections`. */
  datatype Section = Section(title: string, text: string)

  /** A skill record; `kind` is the JSON field `type`. */
  datatype Skill = Skill(nameZh: string, nameEn: string, kind: string,
                         effect: string, icon: string, details: seq<Stat>)

  datatype Item = Item(
    id: Option<string>,
    nameZh: Option<string>,
    nameEn: Option<string>,
    role: Option<string>,
    description: Option<string>,
    mainImage: Option<string>,
    icon: Option<string>,
    stats: Option<seq<Stat>>,
    cost: Option<string>,
    rules: Option<seq<string>>,
    details: Option<seq<string>>,
    content: Option<string>,
    sections: Option<seq<Section>>,
    skills: Option<seq<Skill>>,
    tactics: Option<seq<string>>)

  type Catalog = map<string, seq<Item>>
}
