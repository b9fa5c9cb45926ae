/** `getPageContext`: the page's category and item id, read from the URL path. */
module PageContext {
  import opened Wrappers
  import opened JsText

  /** `category` is the script's `type`. */
  datatype PageContext = PageContext(category: Option<string>, id: Option<string>)

  /** `path.split('/').filter(segment => segment.length > 0)`. */
  function Segments(path: string): seq<string>
  {
    NonEmpty(Split(path, '/'))
  }

  /** `filename.substring(0, filename.lastIndexOf('.'))`. */
  function FileStem(name: string): (stem: string)
    ensures '.' !in name ==> stem == ""
    ensures '.' in name ==>
      |stem| < |name| && stem == name[..|stem|] && name[|stem|] == '.' &&
      forall j :: |stem| < j < |name| ==> name[j] != '.'
  {
    var dot := LastIndexOf(name, '.');
    assert dot >= 0 <==> '.' in name;
    Substring(name, 0, dot)
  }

  function GetPageContext(path: string): PageContext
  {
    var segs := Segments(path);
    var category := if |segs| >= 2 then Some(segs[|segs| - 2]) else None;
    var id :=
      if category == Some("characters") then Some(FileStem(segs[|segs| - 1]))
      else if category.Some? && Includes(segs[|segs| - 1], "index.html") then Some(segs[|segs| - 2])
      else if category == Some("guides") then Some(FileStem(segs[|segs| - 1]))
      else None;
    PageContext(category, id)
  }

  /** Segments are non-empty and slash-free, and are the non-empty pieces of
      the path in order: a slash splits the path into the segments of its two sides. */
  lemma SegmentsWellFormed(path: string)
    ensures forall s :: s in Segments(path) ==> s != "" && '/' !in s
  {
    SplitSepFree(path, '/');
  }

  lemma SegmentsAppend(a: string, b: string)
    ensures Segments(a + "/" + b) == Segments(a) + Segments(b)
  {
    SplitAppend(a, b, '/');
    NonEmptyAppend(Split(a, '/'), Split(b, '/'));
  }

  lemma SegmentsOfName(name: string)
    requires name != "" && '/' !in name
    ensures Segments(name) == [name]
  {
    SplitNoSep(name, '/');
    assert NonEmpty([name]) == [name] + NonEmpty([name][1..]);
    assert [name][1..] == [];
  }

  /** A page at `<dir>/<category>/<file>` has the segments of `dir` followed by
      the category and the file name. */
  lemma SegmentsOfPage(dir: string, category: string, file: string)
    requires category != "" && '/' !in category
    requires file != "" && '/' !in file
    ensures Segments(dir + "/" + category + "/" + file) == Segments(dir) + [category, file]
  {
    assert dir + "/" + category + "/" + file == dir + "/" + (category + "/" + file);
    SegmentsAppend(dir, category + "/" + file);
    SegmentsAppend(category, file);
    SegmentsOfName(category);
    SegmentsOfName(file);
  }

  /** The category, when there is one, is a non-empty slash-free segment, so
      the script's `!type` test means "no category". */
  lemma CategoryIsSegment(path: string)
    ensures GetPageContext(path).category.Some? <==> |Segments(path)| >= 2
    ensures GetPageContext(path).category.Some? ==>
      GetPageContext(path).category.value != "" && '/' !in GetPageContext(path).category.value
  {
    SegmentsWellFormed(path);
    var segs := Segments(path);
    if |segs| >= 2 {
      assert segs[|segs| - 2] in segs;
    }
  }

  /** The id rule, branch by branch, in the order the script tests them. */
  lemma IdResolution(path: string)
    ensures var ctx, segs := GetPageContext(path), Segments(path);
      && (ctx.category == Some("characters") ==> ctx.id == Some(FileStem(segs[|segs| - 1])))
      && ((ctx.category.Some? && ctx.category != Some("characters") && Includes(segs[|segs| - 1], "index.html"))
            ==> ctx.id == ctx.category)
      && ((ctx.category == Some("guides") && !Includes(segs[|segs| - 1], "index.html"))
            ==> ctx.id == Some(FileStem(segs[|segs| - 1])))
      && (ctx.id.None? <==>
            ctx.category.None? ||
            (ctx.category.value !in {"characters", "guides"} && !Includes(segs[|segs| - 1], "index.html")))
  {
  }

  /** `<dir>/characters/<stem>.html` names the character `<stem>`. */
  lemma CharacterPage(dir: string, stem: string)
    requires '/' !in stem
    ensures GetPageContext(dir + "/characters/" + stem + ".html")
         == PageContext(Some("characters"), Some(stem))
  {
    var file := stem + ".html";
    assert dir + "/characters/" + stem + ".html" == dir + "/" + "characters" + "/" + file;
    SegmentsOfPage(dir, "characters", file);
    assert file[|stem|] == '.';
    assert file[..|stem|] == stem;
    assert forall j :: |stem| < j < |file| ==> file[j] in "html";
  }

  /** A character file name is cut at its last dot even when it is the
      category's `index.html`: the characters branch is tested first. */
  lemma CharactersIndexIsIndex(dir: string)
    ensures GetPageContext(dir + "/characters/index.html")
         == PageContext(Some("characters"), Some("index"))
  {
    CharacterPage(dir, "index");
    assert dir + "/characters/" + "index" + ".html" == dir + "/characters/index.html";
  }

  /** A character file name without a dot gives the empty id
      (`lastIndexOf` is -1 and `substring(0, -1)` is ""). */
  lemma CharacterWithoutDot(dir: string, name: string)
    requires name != "" && '/' !in name && '.' !in name
    ensures GetPageContext(dir + "/characters/" + name)
         == PageContext(Some("characters"), Some(""))
  {
    assert dir + "/characters/" + name == dir + "/" + "characters" + "/" + name;
    SegmentsOfPage(dir, "characters", name);
  }

  /** Any other category's `index.html` page uses the category name itself
      as its id; for `guides` this is the id "guides". */
  lemma IndexPage(dir: string, category: string)
    requires category != "" && '/' !in category && category != "characters"
    ensures GetPageContext(dir + "/" + category + "/index.html")
         == PageContext(Some(category), Some(category))
  {
    assert dir + "/" + category + "/index.html" == dir + "/" + category + "/" + "index.html";
    SegmentsOfPage(dir, category, "index.html");
    IncludesInfix("", "index.html", "");
    assert "" + "index.html" + "" == "index.html";
  }

  /** A guide page `<dir>/guides/<file>` (not an index page) names the guide
      by its file stem. */
  lemma GuidePage(dir: string, file: string)
    requires file != "" && '/' !in file && !Includes(file, "index.html")
    ensures GetPageContext(dir + "/guides/" + file)
         == PageContext(Some("guides"), Some(FileStem(file)))
  {
    assert dir + "/guides/" + file == dir + "/" + "guides" + "/" + file;
    SegmentsOfPage(dir, "guides", file);
  }

  /** Any other page with a non-index file name has no id. */
  lemma OtherPage(dir: string, category: string, file: string)
    requires category != "" && '/' !in category && category !in {"characters", "guides"}
    requires file != "" && '/' !in file && !Includes(file, "index.html")
    ensures GetPageContext(dir + "/" + category + "/" + file)
         == PageContext(Some(category), None)
  {
    SegmentsOfPage(dir, category, file);
  }

  /** A page directly under the site root (`/`, `/index.html`) has no category
      and no id. */
  lemma SiteRootPage(file: string)
    requires '/' !in file
    ensures GetPageContext("/" + file) == PageContext(None, None)
  {
    assert "/" + file == "" + "/" + file;
    SegmentsAppend("", file);
    assert Segments("") == [];
    if file != "" {
      SegmentsOfName(file);
    } else {
      assert Segments(file) == [];
    }
  }
}
