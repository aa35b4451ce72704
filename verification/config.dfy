/** The AI configuration as the annotate command builds it: the loaded
    configuration with the `--provider`, `--api-key` and `--model` flags
    laid over it (the start of `RunE` in internal/cmd/annotate.go). */
module Config {

  /** `ai.Config`. Its remaining fields belong to the AI SDK, which is not
      part of this model; they are carried as an opaque map. */
  datatype AiConfig = AiConfig(provider: string, apiKey: string, defaultModel: string, rest: map<string, string>)

  /** A flag overrides a setting only when it was given (non-empty). */
  function Override(flag: string, setting: string): (r: string)
    ensures flag != "" ==> r == flag
    ensures flag == "" ==> r == setting
  {
    if flag != "" then flag else setting
  }

  /** The effective configuration: each of the three flags replaces its
      field when non-empty, and every other field is copied. */
  function ApplyFlags(cfg: AiConfig, provider: string, apiKey: string, model: string): (r: AiConfig)
    ensures provider != "" ==> r.provider == provider
    ensures provider == "" ==> r.provider == cfg.provider
    ensures apiKey != "" ==> r.apiKey == apiKey
    ensures apiKey == "" ==> r.apiKey == cfg.apiKey
    ensures model != "" ==> r.defaultModel == model
    ensures model == "" ==> r.defaultModel == cfg.defaultModel
    ensures r.rest == cfg.rest
  {
    cfg.(provider := Override(provider, cfg.provider),
         apiKey := Override(apiKey, cfg.apiKey),
         defaultModel := Override(model, cfg.defaultModel))
  }

  /** Without flags the loaded configuration is used as is. */
  lemma NoFlagsKeepConfig(cfg: AiConfig)
    ensures ApplyFlags(cfg, "", "", "") == cfg
  {
  }

  /** Applying the same flags twice changes nothing more. */
  lemma ApplyFlagsIdempotent(cfg: AiConfig, provider: string, apiKey: string, model: string)
    ensures ApplyFlags(ApplyFlags(cfg, provider, apiKey, model), provider, apiKey, model)
            == ApplyFlags(cfg, provider, apiKey, model)
  {
  }

  /** Two rounds of flags act as one where each field takes the later
      non-empty flag. */
  lemma ApplyFlagsCompose(cfg: AiConfig, p1: string, k1: string, m1: string, p2: string, k2: string, m2: string)
    ensures ApplyFlags(ApplyFlags(cfg, p1, k1, m1), p2, k2, m2)
            == ApplyFlags(cfg, Override(p2, p1), Override(k2, k1), Override(m2, m1))
  {
  }
}
