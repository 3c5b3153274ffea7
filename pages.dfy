/** The page scripts `index.php`, `archive.php`, `single.php` and
    `page.php`: each builds a context and an ordered list of candidate
    templates and hands them to `render`. */
module Pages {
  import opened Php
  import opened Env
  import opened Exceptions

  /** The call a page script makes: `render($paths, $context, $engine)`;
      `engine` is None when the script passes no engine argument. */
  datatype RenderCall = RenderCall(paths: PathArg, context: Context, engine: Option<string>)

  // ---------------------------------------------------------------------
  // index.php

  /** The candidates of `index.php`: `index.twig`, with `front-page.twig` and
      `home.twig` in front of it on the blog home. */
  function IndexTemplates(isHome: bool): (t: seq<string>)
    ensures |t| == if isHome then 3 else 1
    ensures t[|t| - 1] == "index.twig"
    ensures isHome ==> t[..2] == ["front-page.twig", "home.twig"]
  {
    if isHome then ["front-page.twig", "home.twig", "index.twig"] else ["index.twig"]
  }

  method IndexPage(context: Context, isHome: bool) returns (call: RenderCall)
    ensures call == RenderCall(Paths(IndexTemplates(isHome)), context, Some("twig"))
  {
    var templates := ["index.twig"];
    if isHome {
      templates := ["front-page.twig", "home.twig"] + templates;
      assert templates == ["front-page.twig", "home.twig", "index.twig"];
    }
    call := RenderCall(Paths(templates), context, Some("twig"));
  }

  // ---------------------------------------------------------------------
  // archive.php

  /** What WordPress reports about the archive being shown: the conditional
      tags, `get_the_date($format)`, the titles and the query values. */
  datatype ArchiveQuery = ArchiveQuery(
    isDay: bool, isMonth: bool, isYear: bool, isTag: bool, isCategory: bool, isPostTypeArchive: bool,
    date: string -> string, tagTitle: string, catTitle: string, cat: string,
    postTypeTitle: string, postType: string, posts: Value)

  const ArchiveDefaults := ["archive.twig", "index.twig"]

  /** The title the `if`/`elseif` chain settles on. */
  function ArchiveTitle(q: ArchiveQuery): string {
    if q.isDay then "Archive: " + q.date("D M Y")
    else if q.isMonth then "Archive: " + q.date("M Y")
    else if q.isYear then "Archive: " + q.date("Y")
    else if q.isTag then q.tagTitle
    else if q.isCategory then q.catTitle
    else if q.isPostTypeArchive then q.postTypeTitle
    else "Archive"
  }

  /** The candidate added in front of the defaults, if any: only the
      category and the post-type branches add one. */
  function ArchiveExtra(q: ArchiveQuery): Option<string> {
    if q.isDay || q.isMonth || q.isYear || q.isTag then None
    else if q.isCategory then Some("archive-" + q.cat + ".twig")
    else if q.isPostTypeArchive then Some("archive-" + q.postType + ".twig")
    else None
  }

  /** The candidates of `archive.php`. */
  function ArchiveTemplates(q: ArchiveQuery): (t: seq<string>)
    ensures |t| == 2 || |t| == 3
    ensures t[|t| - 2..] == ArchiveDefaults
    ensures |t| == 3 <==> ArchiveExtra(q).Some?
    ensures |t| == 3 ==> t[0] == ArchiveExtra(q).value
  {
    match ArchiveExtra(q)
    case Some(x) => [x] + ArchiveDefaults
    case None => ArchiveDefaults
  }

  /** The branches are tried in order and the first that holds decides the
      title, whatever later conditions also hold. */
  lemma ArchiveFirstBranchWins(q: ArchiveQuery)
    ensures q.isDay ==> ArchiveTitle(q) == "Archive: " + q.date("D M Y") && ArchiveExtra(q).None?
    ensures !q.isDay && q.isMonth ==> ArchiveTitle(q) == "Archive: " + q.date("M Y") && ArchiveExtra(q).None?
    ensures !q.isDay && !q.isMonth && q.isYear ==> ArchiveTitle(q) == "Archive: " + q.date("Y") && ArchiveExtra(q).None?
    ensures !q.isDay && !q.isMonth && !q.isYear && q.isTag ==> ArchiveTitle(q) == q.tagTitle && ArchiveExtra(q).None?
    ensures !q.isDay && !q.isMonth && !q.isYear && !q.isTag && q.isCategory ==>
      ArchiveTitle(q) == q.catTitle && ArchiveExtra(q) == Some("archive-" + q.cat + ".twig")
    ensures !q.isDay && !q.isMonth && !q.isYear && !q.isTag && !q.isCategory && q.isPostTypeArchive ==>
      ArchiveTitle(q) == q.postTypeTitle && ArchiveExtra(q) == Some("archive-" + q.postType + ".twig")
    ensures !q.isDay && !q.isMonth && !q.isYear && !q.isTag && !q.isCategory && !q.isPostTypeArchive ==>
      ArchiveTitle(q) == "Archive" && ArchiveExtra(q).None?
  {
  }

  /** `archive.php`: the title and the posts are written into the context,
      at most one candidate is put in front of the defaults. */
  method ArchivePage(context: Context, q: ArchiveQuery) returns (call: RenderCall)
    ensures call.paths == Paths(ArchiveTemplates(q))
    ensures call.context == context["title" := Str(ArchiveTitle(q))]["posts" := q.posts]
    ensures call.engine == Some("twig")
  {
    var templates := ArchiveDefaults;
    var ctx := context;
    ctx := ctx["title" := Str("Archive")];
    if q.isDay {
      ctx := ctx["title" := Str("Archive: " + q.date("D M Y"))];
    } else if q.isMonth {
      ctx := ctx["title" := Str("Archive: " + q.date("M Y"))];
    } else if q.isYear {
      ctx := ctx["title" := Str("Archive: " + q.date("Y"))];
    } else if q.isTag {
      ctx := ctx["title" := Str(q.tagTitle)];
    } else if q.isCategory {
      ctx := ctx["title" := Str(q.catTitle)];
      templates := ["archive-" + q.cat + ".twig"] + templates;
    } else if q.isPostTypeArchive {
      ctx := ctx["title" := Str(q.postTypeTitle)];
      templates := ["archive-" + q.postType + ".twig"] + templates;
    }
    ctx := ctx["posts" := q.posts];
    call := RenderCall(Paths(templates), ctx, Some("twig"));
  }

  // ---------------------------------------------------------------------
  // single.php

  /** The candidates of `single.php`. */
  function SingleTemplates(post: Post, passwordRequired: bool): (p: PathArg)
    ensures passwordRequired ==> p == Path("single-password.twig")
    ensures !passwordRequired ==> p.Paths? && |p.paths| == 4 && p.paths[3] == "single.twig"
    ensures !passwordRequired ==> (p.paths[..3] ==
      ["single-" + Decimal(post.id) + ".twig", "single-" + post.postType + ".twig", "single-" + post.slug + ".twig"])
  {
    if passwordRequired then Path("single-password.twig")
    else Paths(["single-" + Decimal(post.id) + ".twig", "single-" + post.postType + ".twig",
                "single-" + post.slug + ".twig", "single.twig"])
  }

  method SinglePage(context: Context, post: Post, passwordRequired: bool) returns (call: RenderCall)
    ensures call.context == context["post" := PostValue(post)]
    ensures call.paths == SingleTemplates(post, passwordRequired)
    ensures call.engine == Some("twig")
  {
    var ctx := context["post" := PostValue(post)];
    if passwordRequired {
      call := RenderCall(Path("single-password.twig"), ctx, Some("twig"));
    } else {
      call := RenderCall(Paths(["single-" + Decimal(post.id) + ".twig", "single-" + post.postType + ".twig",
                                "single-" + post.slug + ".twig", "single.twig"]), ctx, Some("twig"));
    }
  }

  // ---------------------------------------------------------------------
  // page.php

  const PageExtensions := [".twig", ".blade.php", ".php"]

  /** The six candidates of `page.php`: the page-name group, then the generic
      group, each in the order twig, Blade, plain PHP. */
  function PageTemplates(post: Post): (t: seq<string>)
    ensures |t| == 6
    ensures forall k :: 0 <= k < 3 ==> t[k] == "page-" + post.postName + PageExtensions[k]
    ensures forall k :: 0 <= k < 3 ==> t[3 + k] == "page" + PageExtensions[k]
  {
    ["page-" + post.postName + ".twig", "page-" + post.postName + ".blade.php", "page-" + post.postName + ".php",
     "page.twig", "page.blade.php", "page.php"]
  }

  /** `page.php` passes no engine: the default of `render` applies. */
  method PagePage(context: Context, post: Post) returns (call: RenderCall)
    ensures call == RenderCall(Paths(PageTemplates(post)), context["post" := PostValue(post)], None)
  {
    var ctx := context["post" := PostValue(post)];
    call := RenderCall(Paths(PageTemplates(post)), ctx, None);
  }
}
