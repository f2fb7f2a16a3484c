/**
 * Building a compose project for a stack: the variable map the compose files
 * are interpolated from, the upgrade overlay on it, the schema URL of the
 * stack's account, and the context handed to the project constructor, which
 * is a function given to the model (`newProject`).
 */
module StackProject {
  import opened Wrappers

  /** Variable values are kept as their text. */
  type Variables = map<string, string>

  datatype Stack = Stack(
    name: string,
    accountId: string,
    environment: Variables,
    dockerCompose: string,
    rancherCompose: string)

  datatype StackUpgrade = StackUpgrade(
    environment: Variables,
    dockerCompose: string,
    rancherCompose: string)

  /** What the project is built from. */
  datatype Context = Context(
    projectName: string,
    composeBytes: seq<string>,
    environment: Variables,
    url: string,
    accessKey: string,
    secretKey: string,
    rancherComposeBytes: string,
    upgrade: bool)

  datatype Project = Project(context: Context)

  datatype Error = Error(message: string)

  const ProjectsPath := "/projects/"
  const SchemasPath := "/schemas"

  /** `createVariableMap`: a fresh copy of the stack's environment, entry by entry. */
  method CreateVariableMap(stack: Stack, rancherCompose: string) returns (variables: Variables)
    ensures variables.Keys == stack.environment.Keys
    ensures forall k | k in variables :: variables[k] == stack.environment[k]
  {
    variables := map[];
    var todo := stack.environment.Keys;
    while todo != {}
      invariant todo <= stack.environment.Keys
      invariant variables.Keys == stack.environment.Keys - todo
      invariant forall k | k in variables :: variables[k] == stack.environment[k]
      decreases |todo|
    {
      var k :| k in todo;
      variables := variables[k := stack.environment[k]];
      todo := todo - {k};
    }
  }

  /** The upgrade's environment assigned over the variables, entry by entry: the upgrade wins on shared names. */
  method Overlay(variables: Variables, environment: Variables) returns (r: Variables)
    ensures r == variables + environment
  {
    r := variables;
    var todo := environment.Keys;
    ghost var done: set<string> := {};
    while todo != {}
      invariant todo == environment.Keys - done && done <= environment.Keys
      invariant r == variables + Restrict(environment, done)
      decreases |todo|
    {
      var k :| k in todo;
      OverlayStep(variables, environment, done, k);
      r := r[k := environment[k]];
      todo := todo - {k};
      done := done + {k};
    }
    assert done == environment.Keys;
    assert Restrict(environment, done) == environment;
  }

  /** The entries of `m` whose names are in `keys`. */
  function Restrict(m: Variables, keys: set<string>): Variables {
    map k | k in keys && k in m :: m[k]
  }

  /** Assigning one more entry of `environment` extends the part already assigned by that entry. */
  lemma OverlayStep(variables: Variables, environment: Variables, done: set<string>, k: string)
    requires k in environment
    ensures (variables + Restrict(environment, done))[k := environment[k]] == variables + Restrict(environment, done + {k})
  {
  }

  /**
   * The schema URL of an account under the API base URL: the base URL, then
   * `/projects/`, then the account id, then `/schemas`, each piece readable
   * back from its place.
   */
  function SchemaUrl(url: string, accountId: string): (r: string)
    ensures |r| == |url| + |ProjectsPath| + |accountId| + |SchemasPath|
    ensures r[..|url|] == url
    ensures r[|url|..|url| + |ProjectsPath|] == ProjectsPath
    ensures r[|url| + |ProjectsPath|..|r| - |SchemasPath|] == accountId
    ensures r[|r| - |SchemasPath|..] == SchemasPath
  {
    var r := url + ProjectsPath + accountId + SchemasPath;
    assert r == url + (ProjectsPath + (accountId + SchemasPath));
    r
  }

  /** The context a stack's project is built from. */
  function StackContext(stack: Stack, url: string, accessKey: string, secretKey: string): Context {
    Context(stack.name, [stack.dockerCompose], stack.environment, SchemaUrl(url, stack.accountId),
            accessKey, secretKey, stack.rancherCompose, false)
  }

  /** The context an upgrade's project is built from. */
  function UpgradeContext(stack: Stack, opts: StackUpgrade, url: string, accessKey: string, secretKey: string): Context {
    Context(stack.name, [opts.dockerCompose], stack.environment + opts.environment, SchemaUrl(url, stack.accountId),
            accessKey, secretKey, opts.rancherCompose, true)
  }

  /**
   * `constructProject`: the context is built from the stack's own compose
   * files and environment; a constructor error gives neither context nor
   * project.
   */
  method ConstructProject(stack: Stack, url: string, accessKey: string, secretKey: string, newProject: Context -> Option<Error>)
    returns (ctx: Option<Context>, p: Option<Project>, err: Option<Error>)
    ensures err == newProject(StackContext(stack, url, accessKey, secretKey))
    ensures err.Some? ==> ctx.None? && p.None?
    ensures err.None? ==> ctx == Some(StackContext(stack, url, accessKey, secretKey)) && p == Some(Project(ctx.value))
  {
    var variables := CreateVariableMap(stack, stack.rancherCompose);
    assert variables == stack.environment;
    var context := Context(stack.name, [stack.dockerCompose], variables, SchemaUrl(url, stack.accountId),
                           accessKey, secretKey, stack.rancherCompose, false);
    err := newProject(context);
    if err.Some? {
      return None, None, err;
    }
    return Some(context), Some(Project(context)), None;
  }

  /**
   * `constructProjectUpgrade`: the context is built from the upgrade's
   * compose files and from the stack's environment overlaid by the upgrade's,
   * and is marked as an upgrade; the variables are returned with the project.
   */
  method ConstructProjectUpgrade(stack: Stack, opts: StackUpgrade, url: string, accessKey: string, secretKey: string,
                                 newProject: Context -> Option<Error>)
    returns (p: Option<Project>, variables: Option<Variables>, err: Option<Error>)
    ensures err == newProject(UpgradeContext(stack, opts, url, accessKey, secretKey))
    ensures err.Some? ==> p.None? && variables.None?
    ensures err.None? ==> p == Some(Project(UpgradeContext(stack, opts, url, accessKey, secretKey)))
    ensures err.None? ==> variables == Some(stack.environment + opts.environment)
  {
    var vars := CreateVariableMap(stack, opts.rancherCompose);
    vars := Overlay(vars, opts.environment);
    assert vars == stack.environment + opts.environment;
    var context := Context(stack.name, [opts.dockerCompose], vars, SchemaUrl(url, stack.accountId),
                           accessKey, secretKey, opts.rancherCompose, true);
    err := newProject(context);
    if err.Some? {
      return None, None, err;
    }
    return Some(Project(context)), Some(vars), None;
  }

  /** Every variable of an upgrade reaches the upgraded context; the stack's others keep their values. */
  lemma UpgradeVariables(stack: Stack, opts: StackUpgrade, url: string, accessKey: string, secretKey: string)
    ensures var env := UpgradeContext(stack, opts, url, accessKey, secretKey).environment;
      env.Keys == stack.environment.Keys + opts.environment.Keys &&
      (forall k | k in opts.environment :: env[k] == opts.environment[k]) &&
      (forall k | k in stack.environment && k !in opts.environment :: env[k] == stack.environment[k])
  {
  }
}
