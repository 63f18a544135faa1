/**
 * The four instruction texts of src/prompts/ (role, behavior, style, output
 * format). Their wording is fixed prose that no rule of the chain depends on,
 * so each is a constant whose value this model leaves unspecified; the chain
 * only strips and joins them.
 */
module Prompts {
  const ROLE_PROMPT: string
  const BEHAVIOR_PROMPT: string
  const STYLE_PROMPT: string
  const OUTPUT_FORMAT_PROMPT: string
}
