/**
 * Choosing the database at start-up (backend/src/database/connection.py):
 * `DATABASE_URL` is normalised for SQLAlchemy and PostgreSQL over TLS, and
 * then decides between PostgreSQL and the local SQLite file.
 *
 * The environment value is a parameter (`None` when unset), and so is
 * whether building the PostgreSQL engine raises.
 */
module ServerConnection {
  import opened Wrappers
  import opened Strings

  const LegacyScheme := "postgres://"
  const PostgresScheme := "postgresql://"
  const PostgresDriverPrefix := "postgresql+"
  const PostgresMarker := "postgresql"
  const SslModeMarker := "sslmode="
  const SslQuery := "?sslmode=require"
  const SslParameter := "&sslmode=require"
  const SqliteUrl := "sqlite:///./todo_app.db"

  datatype Backend = PostgreSql | Sqlite

  /**
   * The scheme rewrite: "postgres://" at the start becomes "postgresql://"
   * (`replace(..., 1)` touches only the first occurrence, which is that
   * prefix); the rest of the URL is kept.
   */
  function RewriteScheme(url: string): (r: string)
    ensures StartsWith(url, LegacyScheme) ==> r == PostgresScheme + url[|LegacyScheme|..]
    ensures !StartsWith(url, LegacyScheme) ==> r == url
    ensures !StartsWith(r, LegacyScheme)
  {
    if StartsWith(url, LegacyScheme) then
      var r := PostgresScheme + url[|LegacyScheme|..];
      assert r[8] != LegacyScheme[8];
      r
    else url
  }

  /**
   * The TLS requirement: a URL mentioning "postgresql" without any
   * "sslmode=" gains `sslmode=require`, as a further query parameter when it
   * already has a "?", else as the query.
   */
  function RequireSsl(url: string): (r: string)
    ensures Contains(url, PostgresMarker) && !Contains(url, SslModeMarker) ==>
      r == url + (if '?' in url then SslParameter else SslQuery)
    ensures !(Contains(url, PostgresMarker) && !Contains(url, SslModeMarker)) ==> r == url
    ensures Contains(url, PostgresMarker) ==> Contains(r, SslModeMarker)
  {
    if Contains(url, PostgresMarker) && !Contains(url, SslModeMarker) then
      var suffix := if '?' in url then SslParameter else SslQuery;
      assert OccursAt(suffix, SslModeMarker, 1);
      ContainsSuffix(url, suffix, SslModeMarker);
      url + suffix
    else url
  }

  /** Both rewrites, in the order the module applies them. */
  function Normalise(url: string): string {
    RequireSsl(RewriteScheme(url))
  }

  /** The URLs handed to the PostgreSQL engine. */
  predicate IsPostgresUrl(url: string) {
    StartsWith(url, PostgresScheme) || StartsWith(url, PostgresDriverPrefix)
  }

  /** Appending the TLS parameter never creates a legacy scheme at the start. */
  lemma RequireSslKeepsScheme(url: string)
    requires !StartsWith(url, LegacyScheme)
    ensures !StartsWith(RequireSsl(url), LegacyScheme)
  {
    var r := RequireSsl(url);
    if r != url {
      var i :| 0 <= i <= |url| - |PostgresMarker| && OccursAt(url, PostgresMarker, i);
      AppendKeepsScheme(url, r[|url|..], i);
    }
  }

  /** `url` holds "postgresql" at `i` and does not start with "postgres://"; neither does any extension of it. */
  lemma AppendKeepsScheme(url: string, suffix: string, i: int)
    requires !StartsWith(url, LegacyScheme) && OccursAt(url, PostgresMarker, i)
    ensures !StartsWith(url + suffix, LegacyScheme)
  {
    var r := url + suffix;
    if |url| >= |LegacyScheme| {
      assert r[..|LegacyScheme|] == url[..|LegacyScheme|];
    } else {
      assert i == 0 && |url| == |PostgresMarker|;
      assert r[8] == url[8] == PostgresMarker[8];
    }
  }

  /** Normalising twice changes nothing more than normalising once. */
  lemma NormaliseIdempotent(url: string)
    ensures Normalise(Normalise(url)) == Normalise(url)
  {
    var once := Normalise(url);
    RequireSslKeepsScheme(RewriteScheme(url));
    assert RewriteScheme(once) == once;
  }

  /** A legacy "postgres://" URL ends up on PostgreSQL with TLS required, its host and path kept. */
  lemma LegacySchemeNormalised(rest: string)
    ensures var n := Normalise(LegacyScheme + rest);
      IsPostgresUrl(n) && StartsWith(n, PostgresScheme + rest) && Contains(n, SslModeMarker)
  {
    var url := LegacyScheme + rest;
    assert StartsWith(url, LegacyScheme);
    var s := RewriteScheme(url);
    assert url[|LegacyScheme|..] == rest;
    assert OccursAt(s, PostgresMarker, 0);
    var n := RequireSsl(s);
    assert n[..|PostgresScheme + rest|] == PostgresScheme + rest;
    assert n[..|PostgresScheme|] == PostgresScheme;
  }

  /**
   * The module's top level: `DATABASE_URL` rewritten step by step, then
   * PostgreSQL when the result is a PostgreSQL URL and its engine builds,
   * and otherwise (unset, empty, any other scheme, or a failing engine) the
   * local SQLite file.
   */
  method ConfigureDatabase(databaseUrl: Option<string>, engineFails: bool) returns (url: string, backend: Backend)
    ensures backend == PostgreSql <==>
      databaseUrl.Some? && IsPostgresUrl(Normalise(databaseUrl.value)) && !engineFails
    ensures backend == PostgreSql ==> url == Normalise(databaseUrl.value) && Contains(url, SslModeMarker)
    ensures backend == Sqlite ==> url == SqliteUrl
  {
    var current := databaseUrl;
    if current.Some? && current.value != "" && StartsWith(current.value, LegacyScheme) {
      current := Some(ReplaceFirst(current.value, LegacyScheme, PostgresScheme));
    }
    if current.Some? && current.value != "" && Contains(current.value, PostgresMarker) &&
       !Contains(current.value, SslModeMarker) {
      if '?' in current.value {
        current := Some(current.value + SslParameter);
      } else {
        current := Some(current.value + SslQuery);
      }
    }
    assert databaseUrl.Some? ==> current == Some(Normalise(databaseUrl.value));
    if current.Some? && current.value != "" && IsPostgresUrl(current.value) {
      var v := current.value;
      assert StartsWith(v, PostgresMarker) by {
        if StartsWith(v, PostgresScheme) {
          assert v[..|PostgresMarker|] == v[..|PostgresScheme|][..|PostgresMarker|];
        } else {
          assert v[..|PostgresMarker|] == v[..|PostgresDriverPrefix|][..|PostgresMarker|];
        }
      }
      ContainsPrefix(v, PostgresMarker);
      if engineFails {
        url, backend := SqliteUrl, Sqlite;
      } else {
        url, backend := current.value, PostgreSql;
      }
    } else {
      url, backend := SqliteUrl, Sqlite;
    }
  }
}
