/**
 * `createSandbox`: validates the tree (manifest present and parsable, entry
 * file present), splits the optional HTML entry into body and external
 * resources, rewriting that module's content in place, then builds the
 * sandbox descriptor from the rewritten tree.
 *
 * The tree's modules are objects (`Module`) so that the in-place rewrite of
 * `getHTMLInfo` is modelled as a heap update; `Assemble` is the same pipeline
 * on the tree's contents, a value, and `CreateSandbox` is proved against it.
 */
module Sandbox {
  import opened Wrappers
  import opened Dependencies

  /** A file of the tree; `getHTMLInfo` overwrites its `content`. */
  class Module {
    var content: string

    constructor (content: string)
      ensures this.content == content
    {
      this.content := content;
    }
  }

  /** The normalized tree: path to module object. */
  type Directory = map<string, Module>

  /** The parsed manifest, as far as `createSandbox` and `getDependencies` read it. */
  datatype Manifest = Manifest(
    name: Option<string>,
    title: Option<string>,
    description: Option<string>,
    keywords: Option<seq<string>>,
    main: Option<string>,
    dependencies: Option<DependencyMap>,
    devDependencies: Option<DependencyMap>)

  /** What the HTML parser returns for a document. */
  datatype HtmlParse = HtmlParse(body: Option<string>, externalResources: seq<string>)

  /** What `getHTMLInfo` returns: the resources and the module it read (or null). */
  datatype HtmlInfo = HtmlInfo(externalResources: seq<string>, file: Module?)

  /** The denormalizer's records; their shape is not part of this model. */
  datatype SandboxFile = SandboxFile(path: string, code: string)
  datatype SandboxDirectory = SandboxDirectory(path: string)
  datatype Denormalized = Denormalized(modules: seq<SandboxFile>, directories: seq<SandboxDirectory>)

  /**
   * The functions `createSandbox` calls whose bodies lie outside this model:
   * reading the manifest (None when `JSON.parse` throws or yields `null`,
   * whose first property read then throws a TypeError; any other JSON value
   * yields a `Manifest`, a non-object one with every field absent),
   * `getTemplate`, `getMainFile`,
   * `parseHTML`, `denormalize`, `getDependencyRequiresFromFiles` and
   * `mapDependencies`.
   */
  datatype Collaborators = Collaborators(
    parseManifest: string -> Option<Manifest>,
    getTemplate: (Manifest, map<string, string>) -> string,
    getMainFile: string -> string,
    parseHtml: string -> HtmlParse,
    denormalize: map<string, string> -> Denormalized,
    requiresFromFiles: seq<SandboxFile> -> seq<string>,
    mapDependencies: DependencyMap -> DependencyMap)

  /**
   * The three ways `createSandbox` throws. `ManifestParseError` covers both a
   * `JSON.parse` failure and a manifest that parses to `null`.
   */
  datatype Error =
    | PackageJsonMissing
    | ManifestParseError
    | EntryPointMissing(path: string)

  /** The sandbox descriptor `createSandbox` returns. */
  datatype Descriptor = Descriptor(
    title: Option<string>,
    description: Option<string>,
    tags: seq<string>,
    modules: seq<SandboxFile>,
    directories: seq<SandboxDirectory>,
    npmDependencies: DependencyMap,
    externalResources: seq<string>,
    template: string,
    entry: string)

  /** What validation establishes before anything is rewritten. */
  datatype Plan = Plan(manifest: Manifest, template: string, entry: string)

  /** What the HTML step yields on contents: the resources and the rewritten tree. */
  datatype Extraction = Extraction(externalResources: seq<string>, tree: map<string, string>)

  const PackageJsonPath := "package.json"
  const IndexHtmlPath := "index.html"
  const PublicIndexHtmlPath := "public/index.html"

  /** `main || getMainFile(template)`. */
  function EntryPoint(main: Option<string>, templateDefault: string): string {
    if Truthy(main) then main.value else templateDefault
  }

  /**
   * `directory['index.html'] || directory['public/index.html']`, as the path
   * of the chosen module; a present module object is always truthy.
   */
  function HtmlPath<V>(d: map<string, V>): (p: Option<string>)
    ensures IndexHtmlPath in d ==> p == Some(IndexHtmlPath)
    ensures IndexHtmlPath !in d && PublicIndexHtmlPath in d ==> p == Some(PublicIndexHtmlPath)
    ensures p.None? <==> IndexHtmlPath !in d && PublicIndexHtmlPath !in d
    ensures p.Some? ==> p.value in d
  {
    if IndexHtmlPath in d then Some(IndexHtmlPath)
    else if PublicIndexHtmlPath in d then Some(PublicIndexHtmlPath)
    else None
  }

  /** The content of the HTML module after `getHTMLInfo`: the body, when truthy. */
  function RewrittenContent(content: string, body: Option<string>): string {
    if Truthy(body) then body.value else content
  }

  /**
   * `getHTMLInfo` on the tree's contents: no HTML module gives no resources
   * and leaves the tree alone; otherwise the parser's resources, unchanged,
   * and a tree in which only the HTML path may change, to the body when the
   * body is truthy.
   */
  function ExtractHtml(tree: map<string, string>, parseHtml: string -> HtmlParse): (x: Extraction)
    ensures HtmlPath(tree).None? ==> x == Extraction([], tree)
    ensures HtmlPath(tree).Some? ==>
      var h := HtmlPath(tree).value;
      var parsed := parseHtml(tree[h]);
      && x.externalResources == parsed.externalResources
      && x.tree.Keys == tree.Keys
      && (Truthy(parsed.body) ==> x.tree[h] == parsed.body.value)
      && (!Truthy(parsed.body) ==> x.tree[h] == tree[h])
      && forall p :: p in tree && p != h ==> x.tree[p] == tree[p]
  {
    match HtmlPath(tree)
    case None => Extraction([], tree)
    case Some(h) =>
      var parsed := parseHtml(tree[h]);
      Extraction(parsed.externalResources, tree[h := RewrittenContent(tree[h], parsed.body)])
  }

  /**
   * The rewrite settles after one pass when the parser, given a body it
   * produced, returns that body again with no further resources.
   */
  lemma ExtractHtmlStable(tree: map<string, string>, parseHtml: string -> HtmlParse)
    requires forall s :: Truthy(parseHtml(s).body) ==>
      parseHtml(parseHtml(s).body.value) == HtmlParse(parseHtml(s).body, [])
    requires HtmlPath(tree).Some? && Truthy(parseHtml(tree[HtmlPath(tree).value]).body)
    ensures ExtractHtml(ExtractHtml(tree, parseHtml).tree, parseHtml).tree == ExtractHtml(tree, parseHtml).tree
    ensures ExtractHtml(ExtractHtml(tree, parseHtml).tree, parseHtml).externalResources == []
  {
  }

  /**
   * The checks `createSandbox` makes before it changes anything: the manifest
   * exists and parses, and the entry (`main`, or the template's default when
   * `main` is falsy) is a path of the tree. The template is classified on the
   * tree as given.
   */
  function Validate(tree: map<string, string>, c: Collaborators): (r: Result<Plan, Error>)
    ensures PackageJsonPath !in tree ==> r == Failure(PackageJsonMissing)
    ensures PackageJsonPath in tree && c.parseManifest(tree[PackageJsonPath]).None? ==>
      r == Failure(ManifestParseError)
    ensures PackageJsonPath in tree && c.parseManifest(tree[PackageJsonPath]).Some? ==>
      var m := c.parseManifest(tree[PackageJsonPath]).value;
      var template := c.getTemplate(m, tree);
      var entry := if Truthy(m.main) then m.main.value else c.getMainFile(template);
      && (entry in tree ==> r == Success(Plan(m, template, entry)))
      && (entry !in tree ==> r == Failure(EntryPointMissing(entry)))
    ensures r.Success? ==> r.value.entry in tree
  {
    if PackageJsonPath !in tree then Failure(PackageJsonMissing)
    else
      match c.parseManifest(tree[PackageJsonPath])
      case None => Failure(ManifestParseError)
      case Some(m) =>
        var template := c.getTemplate(m, tree);
        var entry := EntryPoint(m.main, c.getMainFile(template));
        if entry !in tree then Failure(EntryPointMissing(entry))
        else Success(Plan(m, template, entry))
  }

  /**
   * The descriptor built from a validated plan, the HTML resources and the
   * tree as it stands after the HTML rewrite.
   */
  function Describe(plan: Plan, externalResources: seq<string>, rewritten: map<string, string>,
                    c: Collaborators): (d: Descriptor)
    ensures Truthy(plan.manifest.title) ==> d.title == plan.manifest.title
    ensures !Truthy(plan.manifest.title) ==> d.title == plan.manifest.name
    ensures d.description == plan.manifest.description
    ensures plan.manifest.keywords.None? ==> d.tags == []
    ensures plan.manifest.keywords.Some? ==> d.tags == plan.manifest.keywords.value
    ensures d.modules == c.denormalize(rewritten).modules
    ensures d.directories == c.denormalize(rewritten).directories
    ensures d.externalResources == externalResources
    ensures d.template == plan.template && d.entry == plan.entry
    ensures d.npmDependencies == c.mapDependencies(MergedDependencies(
      plan.manifest.dependencies, plan.manifest.devDependencies,
      c.requiresFromFiles(c.denormalize(rewritten).modules)))
  {
    var m := plan.manifest;
    var dn := c.denormalize(rewritten);
    var deps := GetDependencies(m.dependencies, m.devDependencies, dn.modules, c.requiresFromFiles, c.mapDependencies);
    Descriptor(Or(m.title, m.name), m.description, m.keywords.GetOr([]), dn.modules, dn.directories,
               deps, externalResources, plan.template, plan.entry)
  }

  /** `createSandbox` on the tree's contents. */
  function Assemble(tree: map<string, string>, c: Collaborators): (r: Result<Descriptor, Error>)
    ensures r.Success? <==> Validate(tree, c).Success?
    ensures r.Failure? ==> r.error == Validate(tree, c).error
    ensures r.Success? ==>
      var x := ExtractHtml(tree, c.parseHtml);
      r.value == Describe(Validate(tree, c).value, x.externalResources, x.tree, c)
  {
    match Validate(tree, c)
    case Failure(e) => Failure(e)
    case Success(plan) =>
      var x := ExtractHtml(tree, c.parseHtml);
      Success(Describe(plan, x.externalResources, x.tree, c))
  }

  /** The contents of every module of the tree, by path. */
  function Snapshot(d: Directory): (tree: map<string, string>)
    reads d.Values
    ensures tree.Keys == d.Keys
    ensures forall p :: p in d ==> tree[p] == d[p].content
  {
    map p | p in d :: d[p].content
  }

  /** No module object is reachable under two paths. */
  predicate Unaliased(d: Directory) {
    forall p, q :: p in d && q in d && p != q ==> d[p] != d[q]
  }

  /**
   * `getHTMLInfo(html)`: with no module, empty resources and a null file and
   * nothing changed; otherwise the parser's resources and the same module,
   * whose content becomes the body when the body is truthy.
   */
  method GetHtmlInfo(html: Module?, parseHtml: string -> HtmlParse) returns (info: HtmlInfo)
    modifies html
    ensures html == null ==> info == HtmlInfo([], null)
    ensures html != null ==>
      && info.file == html
      && info.externalResources == parseHtml(old(html.content)).externalResources
      && (Truthy(parseHtml(old(html.content)).body) ==> html.content == parseHtml(old(html.content)).body.value)
      && (!Truthy(parseHtml(old(html.content)).body) ==> html.content == old(html.content))
  {
    if html == null {
      return HtmlInfo([], null);
    }
    var parsed := parseHtml(html.content);
    if Truthy(parsed.body) {
      html.content := parsed.body.value;
    }
    info := HtmlInfo(parsed.externalResources, html);
  }

  /**
   * `createSandbox(directory)`. It fails exactly when validation fails, and
   * then changes nothing. On success the HTML module (if any) has been
   * rewritten in place, every path that reaches that object sees the new
   * content, every other module is untouched, and the descriptor is built
   * from the tree as it stands after the rewrite. When no module is shared
   * between paths this is `Assemble` on the original contents.
   */
  method CreateSandbox(directory: Directory, c: Collaborators) returns (r: Result<Descriptor, Error>)
    modifies directory.Values
    ensures var v := Validate(old(Snapshot(directory)), c);
      && (r.Failure? <==> v.Failure?)
      && (r.Failure? ==> r.error == v.error && Snapshot(directory) == old(Snapshot(directory)))
      && (r.Success? ==> r.value == Describe(v.value, ExtractHtml(old(Snapshot(directory)), c.parseHtml).externalResources,
                                             Snapshot(directory), c))
    ensures HtmlPath(directory).None? ==> Snapshot(directory) == old(Snapshot(directory))
    ensures r.Success? && HtmlPath(directory).Some? ==>
      var html := directory[HtmlPath(directory).value];
      var parsed := old(c.parseHtml(html.content));
      forall p :: p in directory ==>
        directory[p].content == if directory[p] == html then RewrittenContent(old(html.content), parsed.body)
                                else old(directory[p].content)
    ensures Unaliased(directory) ==> r == Assemble(old(Snapshot(directory)), c)
    ensures Unaliased(directory) && r.Success? ==>
      Snapshot(directory) == ExtractHtml(old(Snapshot(directory)), c.parseHtml).tree
  {
    ghost var tree := Snapshot(directory);
    if PackageJsonPath !in directory {
      return Failure(PackageJsonMissing);
    }
    var parsedManifest := c.parseManifest(directory[PackageJsonPath].content);
    if parsedManifest.None? {
      return Failure(ManifestParseError);
    }
    var manifest := parsedManifest.value;
    var template := c.getTemplate(manifest, Snapshot(directory));
    var mainFile := EntryPoint(manifest.main, c.getMainFile(template));
    if mainFile !in directory {
      return Failure(EntryPointMissing(mainFile));
    }
    ghost var plan := Plan(manifest, template, mainFile);
    assert Validate(tree, c) == Success(plan);

    var indexHtml: Module? := null;
    var htmlPath := HtmlPath(directory);
    if htmlPath.Some? {
      indexHtml := directory[htmlPath.value];
    }
    var htmlInfo := GetHtmlInfo(indexHtml, c.parseHtml);
    var rewritten := Snapshot(directory);
    var dn := c.denormalize(rewritten);
    var dependencies := GetDependencies(manifest.dependencies, manifest.devDependencies, dn.modules,
                                        c.requiresFromFiles, c.mapDependencies);
    r := Success(Descriptor(Or(manifest.title, manifest.name), manifest.description, manifest.keywords.GetOr([]),
                            dn.modules, dn.directories, dependencies, htmlInfo.externalResources, template, mainFile));

    assert htmlPath == HtmlPath(tree);
    assert htmlInfo.externalResources == ExtractHtml(tree, c.parseHtml).externalResources;
    if Unaliased(directory) {
      assert rewritten == ExtractHtml(tree, c.parseHtml).tree;
    }
  }
}
