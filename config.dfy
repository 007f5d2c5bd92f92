/** The configuration constants the core depends on (cache lifetimes, rate limits, password rules). */
module Config {

  /** Lifetime in seconds of a cached upstream response. */
  const ApiCacheTtl: int := 300
  /** Lifetime in seconds of a cached clan-statistics response. */
  const ClanStatsCacheTtl: int := 300

  /** General requests allowed per window and the window length in seconds. */
  const GeneralRateLimit: int := 100
  const GeneralRateWindow: int := 3600
  /** Authentication attempts allowed per window and the window length in seconds. */
  const AuthRateLimit: int := 5
  const AuthRateWindow: int := 60

  const PasswordMinLength: int := 8
  const PasswordMaxLength: int := 128
  const PasswordSpecialChars: string := "!@#$%^&*()_+-=[]{}|;:,.<>?"

  /** Default lifetime, in minutes, of a battle-log row read back from the database. */
  const BattleLogCacheMinutes: int := 10

  /** Minimum fuzzy-match score for a roster name to be accepted. */
  const MatchThreshold: real := 70.0
}
