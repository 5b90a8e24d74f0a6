/** The shape of a user record in the users store (data/users.json). */
module Records {
  import opened Optional

  /** A profile object; the backend only ever stores string values under string keys. */
  type Profile = map<string, string>

  /** One chat turn, `{"role": ..., "content": ...}`; the role is never validated. */
  datatype Message = Message(role: string, content: string)

  /** A saved conversation, `{"id": ..., "title": ..., "messages": [...]}`. */
  datatype Session = Session(id: string, title: string, messages: seq<Message>)

  /** `{"created_at"?: float, "profile"?: object|null, "chat_sessions"?: [...]}`.
      A missing or null `created_at` / `profile` is `None`; a missing
      `chat_sessions` reads as the empty list everywhere, so it is `[]`. */
  datatype UserRecord = UserRecord(createdAt: Option<real>, profile: Option<Profile>, chatSessions: seq<Session>)

  /** The whole store, keyed by access code. */
  type Users = map<string, UserRecord>
}
