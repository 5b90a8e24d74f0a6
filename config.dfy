/** The constants of config.py that the modelled code reads. */
module Config {
  const TOKEN_EXPIRY_DAYS: nat := 7
  const SECONDS_PER_DAY: nat := 86400
  const MAX_SESSIONS_PER_USER: nat := 3

  const CHAT_MESSAGE_MAX_LENGTH: nat := 500
  const USER_NAME_MAX_LENGTH: nat := 50
  const ACCESS_CODE_MAX_LENGTH: nat := 100
  const CHROMA_QUERY_LIMIT: nat := 30
  const FALLBACK_SONGS_COUNT: nat := 15

  const CHROMA_BATCH_SIZE: nat := 500
}
