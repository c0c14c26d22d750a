/** The completion provider as the core sees it: role-tagged chat messages
    go in, a completion (or a transport error) comes out. */
module Provider {
  import opened Results

  datatype Role = System | Assistant | User

  /** A `ChatCompletionMessage` with text content (name and tool fields are always empty). */
  datatype ChatMessage = ChatMessage(role: Role, content: string)

  /** What one completion request yields: the provider's error, or the first
      choice's message content, which may be missing. */
  datatype Completion = ProviderError(error: string) | Answer(content: Option<string>)
}
