/** Request and response bodies of the chat endpoints, and HTTP outcomes. */
module ChatSchema {

  datatype ChatRequest = ChatRequest(userId: string, sessionId: string, message: string)

  /** `processing_time` (a wall-clock float) is not part of this model. */
  datatype ChatResponse = ChatResponse(response: string, sessionId: string)

  /** What an endpoint hands back: a body, or an `HTTPException` turned into a status. */
  datatype Http<T> = Ok(body: T) | HttpError(status: nat, detail: string)

  /** FastAPI's answer to an exception no handler catches. */
  const InternalServerError: string := "Internal Server Error"

  /** The body both reset endpoints return once the session is deleted. */
  function ClearedMessage(sessionId: string): string {
    "Conversation memory for session " + sessionId + " has been cleared."
  }

  const SessionNotFound: string := "Session ID not found."
}
