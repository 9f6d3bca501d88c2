/** `AgentSettingsModel` (Models/AgentSettingsModel.swift): the open house being hosted. */
module Settings {

  const DefaultAddress: string := "1833 Gale Ave, Hermosa Beach, CA"

  /** All three fields are plain assignable strings; none of them is required to be non-empty. */
  datatype AgentSettings = AgentSettings(propertyAddress: string, brokerageTeam: string, agentOfRecord: string)

  /** `AgentSettingsModel()`. */
  function DefaultSettings(): (s: AgentSettings)
    ensures s.propertyAddress == DefaultAddress && |s.propertyAddress| == 32
    ensures s.brokerageTeam == "" && s.agentOfRecord == ""
  {
    AgentSettings(DefaultAddress, "", "")
  }
}
