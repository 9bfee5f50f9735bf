/**
 * The framework detector: a first-match search of an ordered table of frameworks and the
 * packages that announce them, over the merged dependency groups of a parsed
 * `package.json`, then a chain of keyword fallbacks over its scripts, name and description.
 * Reading and parsing the manifest is outside the model: the detector is given its outcome.
 */
module FrameworkDetection {
  import opened Wrappers
  import opened Text

  /** A dependency group: package name to the truthiness of its version value. */
  type Deps = map<string, bool>

  /** The fields of `package.json` the detector looks at. An absent dependency group is the
      empty map; an absent `name` or `description` is `""`; `scripts` holds the command
      texts (`Object.values`) when the manifest has a `scripts` object. */
  datatype Package = Package(
    dependencies: Deps,
    devDependencies: Deps,
    peerDependencies: Deps,
    optionalDependencies: Deps,
    scripts: Option<seq<string>>,
    name: string,
    description: string)

  /** What reading `<projectRoot>/package.json` gave: no file, a file that could not be read
      or parsed, or the parsed package. */
  datatype Manifest = Missing | Unreadable | Parsed(pkg: Package)

  /** The framework table in declaration order (which is `Object.entries` order, no key
      being integer-like). `generic` comes last with no packages. */
  const Frameworks: seq<(string, seq<string>)> := [
    ("express", ["express"]),
    ("fastify", ["fastify"]),
    ("koa", ["koa"]),
    ("hapi", ["hapi", "@hapi/hapi"]),
    ("restify", ["restify"]),
    ("nestjs", ["@nestjs/core", "@nestjs/common"]),
    ("adonisjs", ["@adonisjs/core", "adonis"]),
    ("sails", ["sails", "@sailsjs/core"]),
    ("loopback", ["@loopback/core", "loopback"]),
    ("keystone", ["@keystonejs/core", "keystone"]),
    ("strapi", ["@strapi/core", "strapi"]),
    ("nextjs", ["next"]),
    ("nuxtjs", ["nuxt", "@nuxt/core"]),
    ("gatsby", ["gatsby"]),
    ("remix", ["@remix-run/node", "remix"]),
    ("astro", ["astro"]),
    ("react", ["react", "@react/core"]),
    ("vue", ["vue", "@vue/core"]),
    ("angular", ["@angular/core", "angular"]),
    ("svelte", ["svelte", "@svelte/core"]),
    ("solid", ["solid-js", "@solid/core"]),
    ("qwik", ["@qwik/core", "qwik"]),
    ("prisma", ["@prisma/client", "prisma"]),
    ("typeorm", ["typeorm", "@typeorm/core"]),
    ("sequelize", ["sequelize"]),
    ("mongoose", ["mongoose"]),
    ("knex", ["knex"]),
    ("apollo", ["apollo-server", "@apollo/server"]),
    ("mercurius", ["mercurius", "@mercuriusjs/core"]),
    ("yoga", ["@graphql-yoga/core", "@graphql-yoga/node"]),
    ("moleculer", ["moleculer", "@moleculer/core"]),
    ("seneca", ["seneca", "@seneca/core"]),
    ("socketio", ["socket.io", "@socket.io/core"]),
    ("ws", ["ws"]),
    ("uws", ["uws"]),
    ("ghost", ["ghost", "@ghost/core"]),
    ("wordpress", ["@wordpress/core", "wordpress"]),
    ("drupal", ["@drupal/core", "drupal"]),
    ("shopify", ["@shopify/core", "shopify"]),
    ("woocommerce", ["@woocommerce/core", "woocommerce"]),
    ("magento", ["@magento/core", "magento"]),
    ("generic", [])]

  /** `{ ...dependencies, ...devDependencies, ...peerDependencies, ...optionalDependencies }`:
      a later group's entry replaces an earlier one. */
  function MergedDependencies(pkg: Package): (deps: Deps)
    ensures deps.Keys == pkg.dependencies.Keys + pkg.devDependencies.Keys +
                         pkg.peerDependencies.Keys + pkg.optionalDependencies.Keys
  {
    pkg.dependencies + pkg.devDependencies + pkg.peerDependencies + pkg.optionalDependencies
  }

  /** `allDeps[name]` is truthy. */
  predicate Present(deps: Deps, name: string) {
    name in deps && deps[name]
  }

  predicate AnyPresent(deps: Deps, packages: seq<string>) {
    exists k :: 0 <= k < |packages| && Present(deps, packages[k])
  }

  /** The nested `for … of` search with early return: the first table entry one of whose
      packages is present. */
  function FirstFramework(table: seq<(string, seq<string>)>, deps: Deps): (r: Option<string>)
    ensures r.Some? ==> exists i :: 0 <= i < |table| && table[i].0 == r.value && table[i].1 != []
    decreases |table|
  {
    if table == [] then None
    else if AnyPresent(deps, table[0].1) then Some(table[0].0)
    else FirstFramework(table[1..], deps)
  }

  /** `Object.values(scripts).join(' ')`. */
  function JoinSpace(parts: seq<string>): (r: string)
    ensures parts == [] ==> r == ""
  {
    if parts == [] then ""
    else if |parts| == 1 then parts[0]
    else parts[0] + " " + JoinSpace(parts[1..])
  }

  /** Script command text that names a start, dev or serve step. */
  predicate ScriptsServe(pkg: Package) {
    pkg.scripts.Some? &&
    var commands := JoinSpace(pkg.scripts.value);
    Contains(commands, "start") || Contains(commands, "dev") || Contains(commands, "serve")
  }

  /** `${name || ''} ${description || ''}`, lower-cased. */
  function ProjectInfo(pkg: Package): string {
    Lower(pkg.name + " " + pkg.description)
  }

  const CustomLabels: seq<string> := ["custom-server", "api-server", "microservice", "fullstack", "generic"]

  /** `detectCustomFramework`: scripts first, then keywords of the name and description;
      each label is answered exactly when its test holds and no earlier test does. */
  function DetectCustomFramework(pkg: Package): (r: string)
    ensures r in CustomLabels
    ensures ScriptsServe(pkg) <==> r == "custom-server"
    ensures r == "api-server" <==>
      !ScriptsServe(pkg) && (Contains(ProjectInfo(pkg), "api") || Contains(ProjectInfo(pkg), "server"))
    ensures r == "microservice" <==>
      !ScriptsServe(pkg) && !Contains(ProjectInfo(pkg), "api") && !Contains(ProjectInfo(pkg), "server") &&
      Contains(ProjectInfo(pkg), "micro")
    ensures r == "fullstack" <==>
      !ScriptsServe(pkg) && !Contains(ProjectInfo(pkg), "api") && !Contains(ProjectInfo(pkg), "server") &&
      !Contains(ProjectInfo(pkg), "micro") &&
      (Contains(ProjectInfo(pkg), "fullstack") || Contains(ProjectInfo(pkg), "full-stack"))
    ensures r == "generic" <==>
      !ScriptsServe(pkg) && !Contains(ProjectInfo(pkg), "api") && !Contains(ProjectInfo(pkg), "server") &&
      !Contains(ProjectInfo(pkg), "micro") &&
      !Contains(ProjectInfo(pkg), "fullstack") && !Contains(ProjectInfo(pkg), "full-stack")
  {
    if ScriptsServe(pkg) then "custom-server"
    else
      var info := ProjectInfo(pkg);
      MicroserviceHasMicro(info);
      if Contains(info, "api") || Contains(info, "server") then "api-server"
      else if Contains(info, "microservice") || Contains(info, "micro") then "microservice"
      else if Contains(info, "fullstack") || Contains(info, "full-stack") then "fullstack"
      else "generic"
  }

  /** "microservice" contains "micro", so the chain's first `micro…` test adds nothing. */
  lemma MicroserviceHasMicro(s: string)
    ensures Contains(s, "microservice") ==> Contains(s, "micro")
  {
    if Contains(s, "microservice") {
      ContainsWitness(s, "microservice");
      var k: nat :| StartsAt(s, k, "microservice");
      assert s[k..k + 5] == "micro";
      assert StartsAt(s, k, "micro");
      ContainsWitness(s, "micro");
    }
  }

  /** `detect`: `generic` without a readable manifest; otherwise the first framework of the
      table present in the merged dependencies, else the keyword fallbacks. */
  function Detect(manifest: Manifest): (r: string)
    ensures manifest.Missing? || manifest.Unreadable? ==> r == "generic"
  {
    match manifest
    case Missing => "generic"
    case Unreadable => "generic"
    case Parsed(pkg) =>
      match FirstFramework(Frameworks, MergedDependencies(pkg))
      case Some(framework) => framework
      case None => DetectCustomFramework(pkg)
  }

  // ---------------------------------------------------------------------------------------
  // Properties of the search

  /** The search answers the label of an entry with a present package while no earlier entry
      has one, and answers nothing exactly when no entry has one. */
  lemma {:induction false} FirstFrameworkIsFirstHit(table: seq<(string, seq<string>)>, deps: Deps)
    ensures FirstFramework(table, deps).None? <==>
              forall j :: 0 <= j < |table| ==> !AnyPresent(deps, table[j].1)
    ensures FirstFramework(table, deps).Some? ==>
              exists i :: 0 <= i < |table| && table[i].0 == FirstFramework(table, deps).value &&
                AnyPresent(deps, table[i].1) &&
                forall j :: 0 <= j < i ==> !AnyPresent(deps, table[j].1)
    decreases |table|
  {
    if table != [] && !AnyPresent(deps, table[0].1) {
      var rest := table[1..];
      FirstFrameworkIsFirstHit(rest, deps);
      if FirstFramework(rest, deps).Some? {
        var i :| 0 <= i < |rest| && rest[i].0 == FirstFramework(rest, deps).value &&
          AnyPresent(deps, rest[i].1) && forall j :: 0 <= j < i ==> !AnyPresent(deps, rest[j].1);
        assert table[i + 1] == rest[i];
        forall j | 0 <= j < i + 1 ensures !AnyPresent(deps, table[j].1) {
          if j > 0 { assert table[j] == rest[j - 1]; }
        }
      } else {
        forall j | 0 <= j < |table| ensures !AnyPresent(deps, table[j].1) {
          if j > 0 { assert table[j] == rest[j - 1]; }
        }
      }
    } else if table != [] {
      assert table[0].0 == FirstFramework(table, deps).value;
    }
  }

  /** Merge order: a package is present when the last group that lists it gives it a
      truthy value; a falsy value in a later group hides a truthy one in an earlier group. */
  lemma MergeOrder(pkg: Package, name: string)
    ensures Present(MergedDependencies(pkg), name) <==>
      if name in pkg.optionalDependencies then pkg.optionalDependencies[name]
      else if name in pkg.peerDependencies then pkg.peerDependencies[name]
      else if name in pkg.devDependencies then pkg.devDependencies[name]
      else name in pkg.dependencies && pkg.dependencies[name]
  {
  }

  /** `express` is the first entry, so it wins over every other framework present,
      `nestjs` among them. */
  lemma ExpressWins(pkg: Package)
    requires Present(MergedDependencies(pkg), "express")
    ensures Detect(Parsed(pkg)) == "express"
  {
    assert Frameworks[0].1[0] == "express";
    assert AnyPresent(MergedDependencies(pkg), Frameworks[0].1);
  }

  /** An entry with a present package is what the search answers exactly when no earlier
      entry has one (its label differing from the earlier labels). */
  lemma {:induction false} FirstHitAt(table: seq<(string, seq<string>)>, deps: Deps, n: nat)
    requires n < |table| && AnyPresent(deps, table[n].1)
    requires forall j :: 0 <= j < n ==> table[j].0 != table[n].0
    ensures FirstFramework(table, deps) == Some(table[n].0) <==>
              forall j :: 0 <= j < n ==> !AnyPresent(deps, table[j].1)
    decreases n
  {
    if n > 0 && !AnyPresent(deps, table[0].1) {
      var rest := table[1..];
      assert rest[n - 1] == table[n];
      forall j | 0 <= j < n - 1 ensures rest[j].0 != rest[n - 1].0 {
        assert rest[j] == table[j + 1];
      }
      FirstHitAt(rest, deps, n - 1);
      if forall j :: 0 <= j < n - 1 ==> !AnyPresent(deps, rest[j].1) {
        forall j | 0 <= j < n ensures !AnyPresent(deps, table[j].1) {
          if j > 0 { assert table[j] == rest[j - 1]; }
        }
      } else {
        var j :| 0 <= j < n - 1 && AnyPresent(deps, rest[j].1);
        assert table[j + 1] == rest[j];
      }
    }
  }

  /** The table search answers `nestjs` for a project depending on `@nestjs/core` exactly
      when none of the five frameworks listed before it is present. */
  lemma NestjsTableHit(deps: Deps)
    requires Present(deps, "@nestjs/core")
    ensures FirstFramework(Frameworks, deps).Some?
    ensures FirstFramework(Frameworks, deps) == Some("nestjs") <==>
              forall j :: 0 <= j < 5 ==> !AnyPresent(deps, Frameworks[j].1)
  {
    assert Frameworks[5] == ("nestjs", ["@nestjs/core", "@nestjs/common"]);
    assert AnyPresent(deps, Frameworks[5].1) by {
      assert Frameworks[5].1[0] == "@nestjs/core";
    }
    assert Frameworks[0].0 == "express" && Frameworks[1].0 == "fastify" &&
      Frameworks[2].0 == "koa" && Frameworks[3].0 == "hapi" && Frameworks[4].0 == "restify";
    FirstHitAt(Frameworks, deps, 5);
    FirstFrameworkIsFirstHit(Frameworks, deps);
  }

  /** `nestjs` is detected only when none of the five frameworks listed before it is present. */
  lemma NestjsOnlyAlone(pkg: Package)
    requires Present(MergedDependencies(pkg), "@nestjs/core")
    ensures Detect(Parsed(pkg)) == "nestjs" <==>
              forall j :: 0 <= j < 5 ==> !AnyPresent(MergedDependencies(pkg), Frameworks[j].1)
  {
    var deps := MergedDependencies(pkg);
    NestjsTableHit(deps);
    assert Detect(Parsed(pkg)) == FirstFramework(Frameworks, deps).value;
  }

  /** A project whose only dependency is `@nestjs/core` is detected as `nestjs`. */
  lemma NestjsCoreAlone(pkg: Package)
    requires MergedDependencies(pkg) == map["@nestjs/core" := true]
    ensures Detect(Parsed(pkg)) == "nestjs"
  {
    var deps := MergedDependencies(pkg);
    forall j | 0 <= j < 5 ensures !AnyPresent(deps, Frameworks[j].1) {
      var ps := Frameworks[j].1;
      if j == 0 { assert ps == ["express"]; }
      else if j == 1 { assert ps == ["fastify"]; }
      else if j == 2 { assert ps == ["koa"]; }
      else if j == 3 { assert ps == ["hapi", "@hapi/hapi"]; }
      else { assert ps == ["restify"]; }
      OnlyPresent(deps, "@nestjs/core", ps);
    }
    NestjsOnlyAlone(pkg);
  }

  /** With a single dependency, a package list without it has nothing present. */
  lemma OnlyPresent(deps: Deps, name: string, ps: seq<string>)
    requires deps == map[name := true]
    requires name !in ps
    ensures !AnyPresent(deps, ps)
  {
  }

  /** Table labels and fallback labels, none of which names a scanner of the registry. */
  lemma TableLabels()
    ensures forall i :: 0 <= i < |Frameworks| ==>
              Frameworks[i].0 != "universal" && Frameworks[i].0 != "nestjs-enhanced" &&
              (Frameworks[i].0 == "generic" ==> Frameworks[i].1 == [])
  {
  }

  /** `generic` has no packages, so the table search never answers it: `generic` comes
      only from a missing or unreadable manifest or from the keyword fallbacks. */
  lemma GenericNotFromTable(deps: Deps)
    ensures FirstFramework(Frameworks, deps) != Some("generic")
  {
    TableLabels();
    FirstFrameworkIsFirstHit(Frameworks, deps);
  }

  /** The detector never answers a scanner key of the registry. */
  lemma DetectNeverScannerKey(manifest: Manifest)
    ensures Detect(manifest) != "universal" && Detect(manifest) != "nestjs-enhanced"
  {
    TableLabels();
  }

  /** The keyword tests ignore the letter case of the name and description. */
  lemma CustomIgnoresCase(pkg: Package)
    ensures DetectCustomFramework(pkg) ==
            DetectCustomFramework(pkg.(name := Upper(pkg.name), description := Upper(pkg.description)))
  {
    var up := pkg.(name := Upper(pkg.name), description := Upper(pkg.description));
    var a := pkg.name + " " + pkg.description;
    var b := up.name + " " + up.description;
    assert |a| == |b|;
    forall k | 0 <= k < |a| ensures LowerChar(b[k]) == LowerChar(a[k]) {
      if k < |pkg.name| {
        assert a[k] == pkg.name[k] && b[k] == UpperChar(pkg.name[k]);
      } else if k > |pkg.name| {
        assert a[k] == pkg.description[k - |pkg.name| - 1];
        assert b[k] == UpperChar(pkg.description[k - |pkg.name| - 1]);
      }
    }
    assert ProjectInfo(up) == ProjectInfo(pkg);
  }

  // ---------------------------------------------------------------------------------------
  // Framework information

  datatype FrameworkInfo = FrameworkInfo(name: string, description: string,
                                         patterns: seq<string>, website: string)

  const Infos: map<string, FrameworkInfo> := map[
    "express" := FrameworkInfo("Express.js", "Fast, unopinionated, minimalist web framework",
                               ["app.get()", "router.get()", "app.use()"], "https://expressjs.com"),
    "fastify" := FrameworkInfo("Fastify", "Fast and low overhead web framework",
                               ["fastify.get()", "fastify.post()", "fastify.route()"], "https://fastify.io"),
    "koa" := FrameworkInfo("Koa.js", "Next generation web framework",
                           ["app.use()", "app.get()", "app.post()"], "https://koajs.com"),
    "nestjs" := FrameworkInfo("NestJS", "Progressive Node.js framework",
                              ["@Get()", "@Post()", "@Controller()"], "https://nestjs.com"),
    "nextjs" := FrameworkInfo("Next.js", "React framework for production",
                              ["pages/api/", "app/api/", "getServerSideProps"], "https://nextjs.org"),
    "nuxtjs" := FrameworkInfo("Nuxt.js", "Vue.js framework for production",
                              ["pages/api/", "server/api/", "serverMiddleware"], "https://nuxtjs.org"),
    "generic" := FrameworkInfo("Generic Node.js", "Custom Node.js application",
                               ["http.createServer()", "custom routing"], "https://nodejs.org")]

  /** `getFrameworkInfo`: the entry of a known key, the generic entry for any other. */
  function GetFrameworkInfo(framework: string): (info: FrameworkInfo)
    ensures framework in Infos ==> info == Infos[framework]
    ensures framework !in Infos ==> info == Infos["generic"]
    ensures info in Infos.Values
  {
    if framework in Infos then Infos[framework] else Infos["generic"]
  }

  /** Exactly seven keys have their own entry; every detected label outside them, such as
      `hapi` or `custom-server`, is described as generic Node.js. */
  lemma InfoKeys()
    ensures Infos.Keys == {"express", "fastify", "koa", "nestjs", "nextjs", "nuxtjs", "generic"}
    ensures GetFrameworkInfo("hapi") == GetFrameworkInfo("custom-server") == GetFrameworkInfo("generic")
  {
  }
}
