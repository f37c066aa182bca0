/**
 * The storing service's configuration: values read from the environment
 * with fallbacks, and the assembly of the Postgres connection URL.
 * The process environment is an input map.
 */
module StoringConfig {
  import opened Wrappers
  import opened Errdefs

  type Env = map<string, string>

  /** `getEnv`: the variable's value when it is set and non-empty, else the fallback. */
  function GetEnv(env: Env, key: string, fallback: string): (r: string)
    ensures r == fallback || (key in env && r == env[key])
    ensures key in env && env[key] != "" ==> r == env[key]
    ensures r == "" ==> fallback == ""
  {
    if key in env && env[key] != "" then env[key] else fallback
  }

  datatype AppConfig = AppConfig(grpcPort: string)
  datatype DatabaseConfig = DatabaseConfig(host: string, port: string, name: string, password: string, user: string, url: string)
  datatype MinioConfig = MinioConfig(endpoint: string, accessKey: string, secretKey: string, bucket: string)
  datatype LoggerConfig = LoggerConfig(level: string)
  datatype AnalysisConfig = AnalysisConfig(url: string)

  function DbUserEmptyError(): GoError { Plain("DB User is Empty") }
  function DbNameEmptyError(): GoError { Plain("DB Name is Empty") }

  const UrlScheme := "postgresql://"
  const UrlOptions := "?sslmode=disable"

  /** The connection URL assembled from the database settings. */
  function ConnectionUrl(db: DatabaseConfig): string {
    UrlScheme + db.user + ":" + db.password + "@" + db.host + ":" + db.port + "/" + db.name + UrlOptions
  }

  /** What `makeDbUrl` does to the database settings: the new settings, or the error it returns. */
  function WithDbUrl(db: DatabaseConfig): Result<DatabaseConfig, GoError> {
    if db.url != "" then Success(db)
    else if db.user == "" then Failure(DbUserEmptyError())
    else if db.name == "" then Failure(DbNameEmptyError())
    else Success(db.(url := ConnectionUrl(db)))
  }

  /**
   * `makeDbUrl` keeps a URL that is already set, checks the user before the
   * name, and otherwise only fills in the URL, which is then non-empty.
   */
  lemma {:induction false} WithDbUrlCases(db: DatabaseConfig)
    ensures db.url != "" ==> WithDbUrl(db) == Success(db)
    ensures db.url == "" && db.user == "" ==> WithDbUrl(db) == Failure(DbUserEmptyError())
    ensures db.url == "" && db.user != "" && db.name == "" ==> WithDbUrl(db) == Failure(DbNameEmptyError())
    ensures WithDbUrl(db).Success? ==> WithDbUrl(db).value.(url := db.url) == db && WithDbUrl(db).value.url != ""
    ensures WithDbUrl(db).Failure? <==> db.url == "" && (db.user == "" || db.name == "")
  {
  }

  /** A second `makeDbUrl` changes nothing. */
  lemma {:induction false} WithDbUrlIdempotent(db: DatabaseConfig)
    requires WithDbUrl(db).Success?
    ensures WithDbUrl(WithDbUrl(db).value) == WithDbUrl(db)
  {
    assert |ConnectionUrl(db)| > 0 by { assert ConnectionUrl(db)[0] == 'p'; }
  }

  /** The assembled URL names the user, the host and the database between fixed separators. */
  lemma {:induction false} ConnectionUrlShape(db: DatabaseConfig)
    ensures var u := ConnectionUrl(db);
      && u[..|UrlScheme|] == UrlScheme
      && u[|UrlScheme|..|UrlScheme| + |db.user|] == db.user
      && u[|UrlScheme| + |db.user|] == ':'
      && u[|u| - |UrlOptions|..] == UrlOptions
      && u[|u| - |UrlOptions| - |db.name|..|u| - |UrlOptions|] == db.name
      && u[|u| - |UrlOptions| - |db.name| - 1] == '/'
  {
    var u := ConnectionUrl(db);
    var rest := ":" + db.password + "@" + db.host + ":" + db.port + "/" + db.name + UrlOptions;
    assert u == UrlScheme + db.user + rest;
    var front := UrlScheme + db.user + ":" + db.password + "@" + db.host + ":" + db.port + "/";
    assert u == front + db.name + UrlOptions;
  }

  /** The process configuration; `makeDbUrl` updates its database settings in place. */
  class Config {
    var app: AppConfig
    var database: DatabaseConfig
    var minio: MinioConfig
    var logger: LoggerConfig
    var analysis: AnalysisConfig

    constructor (app: AppConfig, database: DatabaseConfig, minio: MinioConfig, logger: LoggerConfig, analysis: AnalysisConfig)
      ensures this.app == app && this.database == database && this.minio == minio
      ensures this.logger == logger && this.analysis == analysis
    {
      this.app := app;
      this.database := database;
      this.minio := minio;
      this.logger := logger;
      this.analysis := analysis;
    }

    /** `makeDbUrl(cfg)`. */
    method MakeDbUrl() returns (err: Option<GoError>)
      modifies this
      ensures WithDbUrl(old(database)).Failure? ==>
        err == Some(WithDbUrl(old(database)).error) && database == old(database)
      ensures WithDbUrl(old(database)).Success? ==> err == None && database == WithDbUrl(old(database)).value
      ensures app == old(app) && minio == old(minio) && logger == old(logger) && analysis == old(analysis)
    {
      if database.url == "" {
        if database.user == "" {
          return Some(DbUserEmptyError());
        }
        if database.name == "" {
          return Some(DbNameEmptyError());
        }
        database := database.(url := ConnectionUrl(database));
      }
      return None;
    }
  }

  /** The database settings `LoadConfig` reads, before the URL is assembled. */
  function DatabaseDefaults(env: Env): DatabaseConfig {
    DatabaseConfig(
      GetEnv(env, "DB_HOST", "localhost"),
      GetEnv(env, "DB_PORT", "5432"),
      GetEnv(env, "DB_NAME", "postgres"),
      GetEnv(env, "DB_PASSWORD", "postgres"),
      GetEnv(env, "DB_USER", "postgres"),
      "")
  }

  /** `LoadConfig` never fails: the user and the name fall back to the non-empty "postgres". */
  lemma {:induction false} LoadConfigNeverFails(env: Env)
    ensures WithDbUrl(DatabaseDefaults(env)).Success?
    ensures WithDbUrl(DatabaseDefaults(env)).value.url == ConnectionUrl(DatabaseDefaults(env))
  {
    var db := DatabaseDefaults(env);
    assert db.user != "" && db.name != "";
  }

  /** `LoadConfig`. */
  method LoadConfig(env: Env) returns (c: Config?, err: Option<GoError>)
    ensures err == None && c != null && fresh(c)
    ensures c.app == AppConfig(GetEnv(env, "GRPC_PORT", "50051"))
    ensures c.database == WithDbUrl(DatabaseDefaults(env)).value
    ensures c.minio == MinioConfig(
      GetEnv(env, "MINIO_ENDPOINT", "localhost:9000"),
      GetEnv(env, "MINIO_ACCESS_KEY", "user"),
      GetEnv(env, "MINIO_SECRET_KEY", "password"),
      GetEnv(env, "MINIO_BUCKET", "tasks"))
    ensures c.logger == LoggerConfig(GetEnv(env, "LOG_LEVEL", "prod"))
    ensures c.analysis == AnalysisConfig(GetEnv(env, "ANALYSIS_URL", "localhost:9000"))
  {
    c := new Config(
      AppConfig(GetEnv(env, "GRPC_PORT", "50051")),
      DatabaseDefaults(env),
      MinioConfig(
        GetEnv(env, "MINIO_ENDPOINT", "localhost:9000"),
        GetEnv(env, "MINIO_ACCESS_KEY", "user"),
        GetEnv(env, "MINIO_SECRET_KEY", "password"),
        GetEnv(env, "MINIO_BUCKET", "tasks")),
      LoggerConfig(GetEnv(env, "LOG_LEVEL", "prod")),
      AnalysisConfig(GetEnv(env, "ANALYSIS_URL", "localhost:9000")));
    LoadConfigNeverFails(env);
    err := c.MakeDbUrl();
    if err != None {
      return null, err;
    }
  }
}
