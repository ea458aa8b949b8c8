/** What the memory stores key their records by. */
module Sessions {
  datatype SessionKey = SessionKey(sessionID: string, agentID: string)
}
