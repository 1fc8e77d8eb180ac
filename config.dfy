/** The connector configuration of cmd/baton-bill/config.go. */
module Config {
  import opened Wrappers

  /**
   * `config`, without the SDK's base options. A nil `organizationIds` slice
   * is `None`; an empty one is `Some([])`.
   */
  datatype Config = Config(
    username: string,
    password: string,
    organizationIds: Option<seq<string>>,
    developerKey: string)

  const UsernameMissing := "username is missing"
  const PasswordMissing := "password is missing"
  const OrganizationIdsMissing := "organizationIds are missing"
  const DeveloperKeyMissing := "developerKey is missing"

  /** Whether the organization list is nil or empty. */
  predicate NoOrganizations(ids: Option<seq<string>>) {
    ids.None? || |ids.value| == 0
  }

  /**
   * `validateConfig`: the message of the first missing setting, checked in
   * the order username, password, organization ids, developer key; `None`
   * when all four are present.
   */
  function ValidateConfig(cfg: Config): (r: Option<string>)
    ensures r.None? <==>
      cfg.username != "" && cfg.password != "" && !NoOrganizations(cfg.organizationIds) && cfg.developerKey != ""
    ensures cfg.username == "" ==> r == Some(UsernameMissing)
    ensures cfg.username != "" && cfg.password == "" ==> r == Some(PasswordMissing)
    ensures cfg.username != "" && cfg.password != "" && NoOrganizations(cfg.organizationIds) ==>
      r == Some(OrganizationIdsMissing)
    ensures cfg.username != "" && cfg.password != "" && !NoOrganizations(cfg.organizationIds) && cfg.developerKey == "" ==>
      r == Some(DeveloperKeyMissing)
  {
    if cfg.username == "" then Some(UsernameMissing)
    else if cfg.password == "" then Some(PasswordMissing)
    else if cfg.organizationIds.None? || |cfg.organizationIds.value| == 0 then Some(OrganizationIdsMissing)
    else if cfg.developerKey == "" then Some(DeveloperKeyMissing)
    else None
  }

  /** A nil and an empty organization list are rejected alike. */
  lemma NilAndEmptyOrganizationsAgree(cfg: Config)
    ensures ValidateConfig(cfg.(organizationIds := None)) == ValidateConfig(cfg.(organizationIds := Some([])))
  {
  }

  /** An error names a setting that is really missing. */
  lemma ErrorNamesMissingSetting(cfg: Config)
    requires ValidateConfig(cfg).Some?
    ensures ValidateConfig(cfg).value == UsernameMissing ==> cfg.username == ""
    ensures ValidateConfig(cfg).value == PasswordMissing ==> cfg.password == ""
    ensures ValidateConfig(cfg).value == OrganizationIdsMissing ==> NoOrganizations(cfg.organizationIds)
    ensures ValidateConfig(cfg).value == DeveloperKeyMissing ==> cfg.developerKey == ""
  {
  }
}
