/** The two fixed lookup tables at the top of the adapter. */
module Tables {
  import opened Python

  /** Chat roles to the speaker names of the completion prompt. */
  const RoleMap: map<string, string> :=
    map["system" := "Human", "user" := "Human", "assistant" := "Assistant"]

  /** Upstream stop reasons to chat-completion finish reasons. */
  const StopReasonMap: map<string, string> :=
    map["stop_sequence" := "stop", "max_tokens" := "length"]

  /** Every speaker name in the role table is unchanged by `capitalize()`. */
  lemma {:induction false} SpeakerNamesAreCapitalized(role: string)
    requires role in RoleMap
    ensures Capitalize(RoleMap[role]) == RoleMap[role]
    ensures RoleMap[role] == "Human" || RoleMap[role] == "Assistant"
  {
    CapitalizeFixed("Human");
    CapitalizeFixed("Assistant");
  }
}
