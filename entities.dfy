/**
 * The application's value types: a chat message, the value held by a chat
 * session, and the API configuration, with their default values.
 * Strings are sequences of Unicode scalar values, where Kotlin counts UTF-16 code units.
 */
module Entities {
  import opened Json

  /** One chat message; `role` is "user", "assistant" or "system". */
  datatype Message = Message(id: string, role: string, content: string, timestamp: int)

  /** The value held by a chat session object at one moment. */
  datatype SessionData = SessionData(id: string, title: string, messages: seq<Message>, updatedAt: int)

  /** The endpoint, credentials and sampling parameters used for every request. */
  datatype ApiConfig = ApiConfig(
    endpoint: string,
    apiKey: string,
    model: string,
    temperature: real,
    maxTokens: Int32,
    systemPrompt: string)

  /** The UUIDs UUID.randomUUID() hands out, numbered in the order they are drawn. */
  type UuidSource = imap<nat, string>

  /** The readings System.currentTimeMillis() gives, numbered in the order they are taken. */
  type ClockSource = imap<nat, int>

  /** UUID number n. */
  function UuidAt(source: UuidSource, n: nat): string {
    if n in source then source[n] else ""
  }

  /** Clock reading number n. */
  function ClockAt(source: ClockSource, n: nat): int {
    if n in source then source[n] else 0
  }

  /** The placeholder title of a session that has no user message yet ("new conversation"). */
  const DefaultTitle: string := "新对话"

  const DefaultEndpoint: string := "https://api.openai.com/v1/chat/completions"
  const DefaultModel: string := "gpt-3.5-turbo"
  const DefaultTemperature: real := 0.7
  const DefaultMaxTokens: Int32 := 4096

  const DefaultConfig: ApiConfig :=
    ApiConfig(DefaultEndpoint, "", DefaultModel, DefaultTemperature, DefaultMaxTokens, "")
}
