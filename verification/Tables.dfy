/** The two tables (`db/models.py`): alert rules and per-user notification settings. Times are
    whatever the clock said, as numbers. */
module Tables {
  import opened Options

  /** `riskTypes` is None where a request stored a JSON null. */
  datatype Rule = Rule(
    id: string,
    userId: string,
    networkId: string,
    riskTypes: Option<seq<string>>,
    threshold: string,
    recipients: Option<string>,
    active: bool,
    createdAt: nat,
    updatedAt: nat)

  datatype Settings = Settings(
    userId: string,
    emailRecipients: Option<string>,
    webhookUrl: Option<string>,
    updatedAt: nat)
}
