/**
 * The application settings (config.py) as a record of already-loaded
 * values: the host e-mail list parsed from its comma-separated raw value,
 * and the readiness check over the API keys and the provider.
 */
module Config {
  import Text

  datatype Settings = Settings(
    firefliesApiKey: string,
    firefliesApiUrl: string,
    aiProvider: string,
    anthropicApiKey: string,
    openaiApiKey: string,
    dashboardLanguage: string,
    cacheDurationHours: int,
    maxMeetingsPerRequest: int,
    exportDir: string,
    companyName: string,
    hostEmailsRaw: string)

  /** The values every field takes when its environment variable is not set. */
  const Defaults := Settings(
    "", "https://api.fireflies.ai/graphql", "anthropic", "", "", "de", 1, 50, "./exports", "CopeCart", "")

  /** The stripped pieces, with the empty ones dropped. */
  function StrippedNonEmpty(pieces: seq<string>): (r: seq<string>)
    ensures |r| <= |pieces|
    ensures forall i :: 0 <= i < |r| ==> Text.Trimmed(r[i])
  {
    if pieces == [] then []
    else
      var t := Text.Strip(pieces[0]);
      var rest := StrippedNonEmpty(pieces[1..]);
      if t == "" then rest else [t] + rest
  }

  /** A character no piece contains is in no entry. */
  lemma {:induction false} StrippedAvoids(pieces: seq<string>, c: char)
    requires forall j :: 0 <= j < |pieces| ==> c !in pieces[j]
    ensures forall i :: 0 <= i < |StrippedNonEmpty(pieces)| ==> c !in StrippedNonEmpty(pieces)[i]
  {
    if pieces != [] {
      Text.StripSubset(pieces[0], c);
      StrippedAvoids(pieces[1..], c);
    }
  }

  /**
   * `Settings.host_emails`: none for an empty raw value; otherwise the
   * comma-separated pieces, stripped, with empty ones dropped, in order. No
   * entry is empty, contains a comma or has whitespace at either end.
   */
  function HostEmails(s: Settings): (r: seq<string>)
    ensures s.hostEmailsRaw == "" ==> r == []
    ensures forall i :: 0 <= i < |r| ==>
      Text.Trimmed(r[i]) && ',' !in r[i]
  {
    if s.hostEmailsRaw == "" then []
    else
      var pieces := Text.Split(s.hostEmailsRaw, ',');
      StrippedAvoids(pieces, ',');
      StrippedNonEmpty(pieces)
  }

  /** A trimmed, comma-free, non-empty e-mail. */
  predicate CleanEntry(e: string)
  {
    Text.Trimmed(e) && ',' !in e
  }

  lemma {:induction false} StrippedClean(es: seq<string>)
    requires forall i :: 0 <= i < |es| ==> CleanEntry(es[i])
    ensures StrippedNonEmpty(es) == es
  {
    if es != [] {
      Text.StripTrimmed(es[0]);
      StrippedClean(es[1..]);
    }
  }

  /** Writing clean e-mails comma-separated and parsing them back gives the same list. */
  lemma HostEmailsRoundTrip(s: Settings, es: seq<string>)
    requires es != [] && forall i :: 0 <= i < |es| ==> CleanEntry(es[i])
    requires s.hostEmailsRaw == Text.Join(es, ",")
    ensures HostEmails(s) == es
  {
    Text.SplitJoin(es, ',');
    StrippedClean(es);
  }

  /** The dict `validate_config` returns. */
  datatype Status = Status(firefliesApi: bool, aiProvider: bool, ready: bool, messages: seq<string>)

  const FirefliesKeyMissing := "Fireflies API Key fehlt. Bitte in .env konfigurieren."
  const AnthropicKeyMissing := "Anthropic API Key fehlt. Bitte in .env konfigurieren."
  const OpenAiKeyMissing := "OpenAI API Key fehlt. Bitte in .env konfigurieren."

  /** The provider message of the decision table: a missing key of the chosen provider, or an unknown provider. */
  function ProviderMessages(s: Settings): seq<string>
  {
    if s.aiProvider == "anthropic" then (if s.anthropicApiKey == "" then [AnthropicKeyMissing] else [])
    else if s.aiProvider == "openai" then (if s.openaiApiKey == "" then [OpenAiKeyMissing] else [])
    else ["Unbekannter AI Provider: " + s.aiProvider]
  }

  /**
   * `Settings.validate_config`: the Fireflies key is checked, then the
   * chosen provider's key; the configuration is ready when both are there,
   * which is exactly when no message was produced.
   */
  method ValidateConfig(s: Settings) returns (status: Status)
    ensures status.firefliesApi <==> s.firefliesApiKey != ""
    ensures s.aiProvider == "anthropic" ==> (status.aiProvider <==> s.anthropicApiKey != "")
    ensures s.aiProvider == "openai" ==> (status.aiProvider <==> s.openaiApiKey != "")
    ensures s.aiProvider != "anthropic" && s.aiProvider != "openai" ==>
      !status.aiProvider && "Unbekannter AI Provider: " + s.aiProvider in status.messages
    ensures status.messages == (if s.firefliesApiKey == "" then [FirefliesKeyMissing] else []) + ProviderMessages(s)
    ensures status.ready <==> status.firefliesApi && status.aiProvider
    ensures status.ready <==> status.messages == []
    ensures |status.messages| <= 2
  {
    status := Status(s.firefliesApiKey != "", false, false, []);
    if s.firefliesApiKey == "" {
      status := status.(messages := status.messages + [FirefliesKeyMissing]);
    }
    if s.aiProvider == "anthropic" {
      status := status.(aiProvider := s.anthropicApiKey != "");
      if s.anthropicApiKey == "" {
        status := status.(messages := status.messages + [AnthropicKeyMissing]);
      }
    } else if s.aiProvider == "openai" {
      status := status.(aiProvider := s.openaiApiKey != "");
      if s.openaiApiKey == "" {
        status := status.(messages := status.messages + [OpenAiKeyMissing]);
      }
    } else {
      status := status.(messages := status.messages + ["Unbekannter AI Provider: " + s.aiProvider]);
    }
    status := status.(ready := status.firefliesApi && status.aiProvider);
  }

  /**
   * With every default in place there are no host e-mails, and the messages
   * `ValidateConfig` ensures are both missing-key messages, so by its
   * contract the configuration is not ready.
   */
  lemma DefaultsNotReady()
    ensures HostEmails(Defaults) == []
    ensures ProviderMessages(Defaults) == [AnthropicKeyMissing]
    ensures (if Defaults.firefliesApiKey == "" then [FirefliesKeyMissing] else []) + ProviderMessages(Defaults)
      == [FirefliesKeyMissing, AnthropicKeyMissing]
  {
  }
}
