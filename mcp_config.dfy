// cmd/mcp/config.go: the MCP server's provider configuration, read from the
// environment. The environment is a map from variable names to values; a
// variable that is not set reads as "", as os.Getenv does.
module McpConfig {
  import McpMultiCloud

  const DefaultAwsRegion := "us-east-1"

  datatype Config = Config(
    awsRegion: string,
    awsProfile: string,
    gcpProjectId: string,
    gcpBillingAccount: string,
    azureSubscriptionId: string)

  /** os.Getenv: the value of a set variable, "" otherwise. */
  function Getenv(env: map<string, string>, key: string): (value: string)
    ensures key !in env ==> value == ""
    ensures key in env ==> value == env[key]
  {
    if key in env then env[key] else ""
  }

  /** getEnvOrDefault: the variable's value when it is non-empty, the default otherwise. */
  function GetEnvOrDefault(env: map<string, string>, key: string, defaultValue: string): (value: string)
    ensures defaultValue != "" ==> value != ""
    ensures key in env && env[key] != "" ==> value == env[key]
    ensures (key !in env || env[key] == "") ==> value == defaultValue
  {
    var v := Getenv(env, key);
    if v != "" then v else defaultValue
  }

  /** LoadConfig: one field per variable; only the AWS region has a default. */
  function LoadConfig(env: map<string, string>): (c: Config)
    ensures c.awsRegion != ""
    ensures ("AWS_REGION" !in env || env["AWS_REGION"] == "") ==> c.awsRegion == DefaultAwsRegion
    ensures "AWS_REGION" in env && env["AWS_REGION"] != "" ==> c.awsRegion == env["AWS_REGION"]
    ensures c.awsProfile == (if "AWS_PROFILE" in env then env["AWS_PROFILE"] else "")
    ensures c.gcpProjectId == (if "GCP_PROJECT_ID" in env then env["GCP_PROJECT_ID"] else "")
    ensures c.gcpBillingAccount == (if "GCP_BILLING_ACCOUNT" in env then env["GCP_BILLING_ACCOUNT"] else "")
    ensures c.azureSubscriptionId == (if "AZURE_SUBSCRIPTION_ID" in env then env["AZURE_SUBSCRIPTION_ID"] else "")
  {
    Config(
      awsRegion := GetEnvOrDefault(env, "AWS_REGION", DefaultAwsRegion),
      awsProfile := Getenv(env, "AWS_PROFILE"),
      gcpProjectId := Getenv(env, "GCP_PROJECT_ID"),
      gcpBillingAccount := Getenv(env, "GCP_BILLING_ACCOUNT"),
      azureSubscriptionId := Getenv(env, "AZURE_SUBSCRIPTION_ID"))
  }

  /** HasAWS: AWS uses the default credential chain, so it is always available. */
  predicate HasAws(c: Config)
  {
    true
  }

  /** HasGCP: a project is configured. */
  predicate HasGcp(c: Config)
  {
    c.gcpProjectId != ""
  }

  /** HasGCPBilling: a project and a billing account are both configured. */
  predicate HasGcpBilling(c: Config)
  {
    c.gcpProjectId != "" && c.gcpBillingAccount != ""
  }

  /** HasAzure: a subscription is configured. */
  predicate HasAzure(c: Config)
  {
    c.azureSubscriptionId != ""
  }

  /**
   * What the environment enables: AWS always; GCP with a non-empty project;
   * GCP billing only with a project and a billing account, so billing
   * implies GCP; Azure with a non-empty subscription.
   */
  lemma ProvidersFromEnvironment(env: map<string, string>)
    ensures HasAws(LoadConfig(env))
    ensures HasGcp(LoadConfig(env)) <==> "GCP_PROJECT_ID" in env && env["GCP_PROJECT_ID"] != ""
    ensures HasGcpBilling(LoadConfig(env)) <==>
      "GCP_PROJECT_ID" in env && env["GCP_PROJECT_ID"] != ""
      && "GCP_BILLING_ACCOUNT" in env && env["GCP_BILLING_ACCOUNT"] != ""
    ensures HasGcpBilling(LoadConfig(env)) ==> HasGcp(LoadConfig(env))
    ensures HasAzure(LoadConfig(env)) <==> "AZURE_SUBSCRIPTION_ID" in env && env["AZURE_SUBSCRIPTION_ID"] != ""
  {
  }

  /** An empty environment configures AWS in us-east-1 and nothing else. */
  lemma EmptyEnvironment()
    ensures LoadConfig(map[]) == Config(DefaultAwsRegion, "", "", "", "")
    ensures !HasGcp(LoadConfig(map[])) && !HasAzure(LoadConfig(map[]))
  {
  }

  /**
   * The multi-cloud tools query exactly the providers the configuration
   * enables: the cost tool needs GCP billing, the waste tool only a GCP project.
   */
  lemma ToolsFollowConfig(c: Config)
    ensures ("aws" in McpMultiCloud.CostProviders(c.gcpProjectId, c.gcpBillingAccount, c.azureSubscriptionId)) <==> HasAws(c)
    ensures ("gcp" in McpMultiCloud.CostProviders(c.gcpProjectId, c.gcpBillingAccount, c.azureSubscriptionId)) <==> HasGcpBilling(c)
    ensures ("azure" in McpMultiCloud.CostProviders(c.gcpProjectId, c.gcpBillingAccount, c.azureSubscriptionId)) <==> HasAzure(c)
    ensures ("gcp" in McpMultiCloud.WasteProviders(c.gcpProjectId, c.azureSubscriptionId)) <==> HasGcp(c)
    ensures ("azure" in McpMultiCloud.WasteProviders(c.gcpProjectId, c.azureSubscriptionId)) <==> HasAzure(c)
  {
  }
}
