/**
 * The path helpers of the application (src/Acorn/Concerns/Application.php).
 * Each helper joins the base path, a fixed directory name and an optional
 * suffix with the platform's directory separator, or returns an override
 * that the developer set. PHP's truthiness is kept: the strings "" and "0"
 * are false, so an override of "0" counts as unset and a suffix of "0" is
 * appended without a separator.
 */
module Paths {
  import opened Wrappers

  /** The path settings of one application instance; a PHP null is `None`. */
  datatype PathConfig = PathConfig(
    basePath: string,
    separator: string,  // DIRECTORY_SEPARATOR
    databasePath: Option<string>,
    storagePath: Option<string>,
    environmentPath: Option<string>,
    environmentFile: Option<string>)

  /** PHP truthiness of a string. */
  predicate Truthy(s: string) {
    s != "" && s != "0"
  }

  /** PHP truthiness of a nullable string, as `?:` tests it. */
  predicate IsSet(o: Option<string>) {
    o.Some? && Truthy(o.value)
  }

  /** The optional-suffix expression `$path ? DIRECTORY_SEPARATOR . $path : $path`. */
  function Suffix(separator: string, path: string): string {
    if Truthy(path) then separator + path else path
  }

  /** basePath($path): the base path, with the suffix appended when it is given. */
  function BasePath(c: PathConfig, path: string): (r: string)
    ensures path == "" ==> r == c.basePath
    ensures Truthy(path) ==> r == c.basePath + c.separator + path
    ensures c.basePath <= r
  {
    c.basePath + Suffix(c.separator, path)
  }

  /** bootstrapPath($path): `bootstrap` under the base path. */
  function BootstrapPath(c: PathConfig, path: string): (r: string)
    ensures path == "" ==> r == BasePath(c, "bootstrap")
    ensures Truthy(path) ==> r == BasePath(c, "bootstrap" + c.separator + path)
    ensures r == BasePath(c, "bootstrap") + Suffix(c.separator, path)
  {
    c.basePath + c.separator + "bootstrap" + Suffix(c.separator, path)
  }

  /** configPath($path): `config` under the base path. */
  function ConfigPath(c: PathConfig, path: string): (r: string)
    ensures path == "" ==> r == BasePath(c, "config")
    ensures Truthy(path) ==> r == BasePath(c, "config" + c.separator + path)
    ensures r == BasePath(c, "config") + Suffix(c.separator, path)
  {
    c.basePath + c.separator + "config" + Suffix(c.separator, path)
  }

  /** resourcePath($path): `resources` under the base path. */
  function ResourcePath(c: PathConfig, path: string): (r: string)
    ensures path == "" ==> r == BasePath(c, "resources")
    ensures Truthy(path) ==> r == BasePath(c, "resources" + c.separator + path)
    ensures r == BasePath(c, "resources") + Suffix(c.separator, path)
  {
    c.basePath + c.separator + "resources" + Suffix(c.separator, path)
  }

  /** databasePath($path): the override when set, else `database` under the base path. */
  function DatabasePath(c: PathConfig, path: string): (r: string)
    ensures IsSet(c.databasePath) && path == "" ==> r == c.databasePath.value
    ensures IsSet(c.databasePath) && Truthy(path) ==> r == c.databasePath.value + c.separator + path
    ensures !IsSet(c.databasePath) && path == "" ==> r == BasePath(c, "database")
    ensures !IsSet(c.databasePath) && Truthy(path) ==> r == BasePath(c, "database" + c.separator + path)
    ensures r == (if IsSet(c.databasePath) then c.databasePath.value else BasePath(c, "database"))
                 + Suffix(c.separator, path)
  {
    (if IsSet(c.databasePath) then c.databasePath.value else c.basePath + c.separator + "database")
      + Suffix(c.separator, path)
  }

  /** environmentPath(): the override when set, else the base path itself. */
  function EnvironmentPath(c: PathConfig): (r: string)
    ensures IsSet(c.environmentPath) ==> r == c.environmentPath.value
    ensures !IsSet(c.environmentPath) ==> r == BasePath(c, "")
  {
    if IsSet(c.environmentPath) then c.environmentPath.value else c.basePath
  }

  /** storagePath(): the override when set, else `storage` under the base path. */
  function StoragePath(c: PathConfig): (r: string)
    ensures IsSet(c.storagePath) ==> r == c.storagePath.value
    ensures !IsSet(c.storagePath) ==> r == BasePath(c, "storage")
  {
    if IsSet(c.storagePath) then c.storagePath.value else c.basePath + c.separator + "storage"
  }

  /** environmentFile(): the file name set by loadEnvironmentFrom, else `.env`. */
  function EnvironmentFile(c: PathConfig): (r: string)
    ensures IsSet(c.environmentFile) ==> r == c.environmentFile.value
    ensures !IsSet(c.environmentFile) ==> r == ".env"
    ensures Truthy(r)
  {
    if IsSet(c.environmentFile) then c.environmentFile.value else ".env"
  }

  /** environmentFilePath(): the environment file inside the environment directory. */
  function EnvironmentFilePath(c: PathConfig): (r: string)
    ensures r == EnvironmentPath(c) + c.separator + EnvironmentFile(c)
    ensures !IsSet(c.environmentPath) && !IsSet(c.environmentFile) ==> r == BasePath(c, ".env")
    ensures IsSet(c.environmentPath) ==> c.environmentPath.value <= r
  {
    EnvironmentPath(c) + c.separator + EnvironmentFile(c)
  }

  /**
   * The shape shared by the getCached*Path helpers:
   * `$_ENV[key] ?? bootstrapPath() . '/cache/<file>'`. The environment is a
   * parameter; an absent key stands for an unset or null variable.
   */
  function CachedPath(c: PathConfig, env: map<string, string>, key: string, file: string): (r: string)
    ensures key in env ==> r == env[key]
    ensures key !in env ==> r == BasePath(c, "bootstrap") + "/cache/" + file
  {
    if key in env then env[key] else BootstrapPath(c, "") + "/cache/" + file
  }

  /** getCachedConfigPath(). */
  function CachedConfigPath(c: PathConfig, env: map<string, string>): (r: string)
    ensures "APP_CONFIG_CACHE" in env ==> r == env["APP_CONFIG_CACHE"]
    ensures "APP_CONFIG_CACHE" !in env ==> r == BootstrapPath(c, "") + "/cache/config.php"
  {
    CachedPath(c, env, "APP_CONFIG_CACHE", "config.php")
  }

  /** getCachedServicesPath(). */
  function CachedServicesPath(c: PathConfig, env: map<string, string>): (r: string)
    ensures "APP_SERVICES_CACHE" in env ==> r == env["APP_SERVICES_CACHE"]
    ensures "APP_SERVICES_CACHE" !in env ==> r == BootstrapPath(c, "") + "/cache/services.php"
  {
    CachedPath(c, env, "APP_SERVICES_CACHE", "services.php")
  }

  /** getCachedPackagesPath(). */
  function CachedPackagesPath(c: PathConfig, env: map<string, string>): (r: string)
    ensures "APP_PACKAGES_CACHE" in env ==> r == env["APP_PACKAGES_CACHE"]
    ensures "APP_PACKAGES_CACHE" !in env ==> r == BootstrapPath(c, "") + "/cache/packages.php"
  {
    CachedPath(c, env, "APP_PACKAGES_CACHE", "packages.php")
  }

  /** getCachedRoutesPath(). */
  function CachedRoutesPath(c: PathConfig, env: map<string, string>): (r: string)
    ensures "APP_ROUTES_CACHE" in env ==> r == env["APP_ROUTES_CACHE"]
    ensures "APP_ROUTES_CACHE" !in env ==> r == BootstrapPath(c, "") + "/cache/routes.php"
  {
    CachedPath(c, env, "APP_ROUTES_CACHE", "routes.php")
  }

  /** A suffix of "0" is false to PHP, so it is appended with no separator. */
  lemma BasePathZeroSuffix(c: PathConfig)
    ensures BasePath(c, "0") == c.basePath + "0"
    ensures c.separator != "" ==> BasePath(c, "0") != c.basePath + c.separator + "0"
  {
    var sep := c.separator;
    if sep != "" {
      assert |BasePath(c, "0")| < |c.basePath + sep + "0"|;
    }
  }

  /** With a given suffix, the base path can be read back off the front and the suffix off the back. */
  lemma BasePathSplits(c: PathConfig, path: string)
    requires Truthy(path)
    ensures var r := BasePath(c, path);
      r[..|c.basePath|] == c.basePath && r[|c.basePath| + |c.separator|..] == path
  {
    var r := BasePath(c, path);
    assert r == c.basePath + (c.separator + path);
  }
}
