/** `Picowind\Supports\Shortcode`: the `[twig]`, `[blade]` and `[latte]`
    shortcodes, which render a template file named by the `template`
    attribute or else the enclosed content, with the shortcode's own
    engine. */
module Shortcodes {
  import opened Php
  import opened Env

  /** A renderer as the shortcodes call it: `render($template, $context,
      $engine, false)` or `render_string($content, $context, $engine,
      false)`, either of which may return null. */
  type Renderer = (string, Context, string) -> Option<string>

  /** `register_shortcode`, on `init`: the shortcode tags added, each with
      the engine its handler renders with. `filtered` is what the
      `f!picowind/supports/shortcode:register` filter returns for `true`. */
  function RegisterShortcode(filtered: Value): (r: seq<(string, string)>)
    ensures !ValueTruthy(filtered) ==> r == []
    ensures ValueTruthy(filtered) ==> |r| == 3 && forall i :: 0 <= i < |r| ==> r[i].0 == r[i].1
    ensures ValueTruthy(filtered) ==> (set i | 0 <= i < |r| :: r[i].0) == {"twig", "blade", "latte"}
  {
    if !ValueTruthy(filtered) then []
    else
      var r := [("twig", "twig"), ("blade", "blade"), ("latte", "latte")];
      assert (set i | 0 <= i < |r| :: r[i].0) == {"twig", "blade", "latte"} by {
        assert r[0].0 == "twig" && r[1].0 == "blade" && r[2].0 == "latte";
      }
      r
  }

  /** `shortcode_atts(['template' => null], $atts)['template']`. */
  function TemplateAttribute(atts: map<string, string>): Option<string> {
    if "template" in atts then Some(atts["template"]) else None
  }

  /** `if ($x)` on an optional string. */
  predicate Given(x: Option<string>) {
    x.Some? && Truthy(x.value)
  }

  /** `$result ?? ''`. */
  function OrEmpty(result: Option<string>): string {
    if result.Some? then result.value else ""
  }

  /** The body shared by `render_twig_shortcode`, `render_blade_shortcode`
      and `render_latte_shortcode`, for the handler's `engine`. */
  function RenderShortcode(engine: string, atts: map<string, string>, content: Option<string>,
                           globalContext: Context, render: Renderer, renderString: Renderer): (r: string)
    // A non-empty template attribute is rendered as a file.
    ensures Given(TemplateAttribute(atts)) ==> r == OrEmpty(render(TemplateAttribute(atts).value, globalContext, engine))
    // Otherwise non-empty content is rendered as a string.
    ensures !Given(TemplateAttribute(atts)) && Given(content) ==>
      r == OrEmpty(renderString(content.value, globalContext, engine))
    // With neither, nothing is rendered.
    ensures !Given(TemplateAttribute(atts)) && !Given(content) ==> r == ""
  {
    var template := TemplateAttribute(atts);
    if Given(template) then OrEmpty(render(template.value, globalContext, engine))
    else if Given(content) then OrEmpty(renderString(content.value, globalContext, engine))
    else ""
  }

  function RenderTwigShortcode(atts: map<string, string>, content: Option<string>,
                               globalContext: Context, render: Renderer, renderString: Renderer): string {
    RenderShortcode("twig", atts, content, globalContext, render, renderString)
  }

  function RenderBladeShortcode(atts: map<string, string>, content: Option<string>,
                                globalContext: Context, render: Renderer, renderString: Renderer): string {
    RenderShortcode("blade", atts, content, globalContext, render, renderString)
  }

  function RenderLatteShortcode(atts: map<string, string>, content: Option<string>,
                                globalContext: Context, render: Renderer, renderString: Renderer): string {
    RenderShortcode("latte", atts, content, globalContext, render, renderString)
  }

  /** With a template attribute set, the enclosed content and the string
      renderer play no part. */
  lemma TemplateWins(engine: string, atts: map<string, string>, c1: Option<string>, c2: Option<string>,
                     globalContext: Context, render: Renderer, s1: Renderer, s2: Renderer)
    requires "template" in atts && Truthy(atts["template"])
    ensures RenderShortcode(engine, atts, c1, globalContext, render, s1)
         == RenderShortcode(engine, atts, c2, globalContext, render, s2)
  {
  }

  /** Whatever the renderers return, a shortcode yields a string; a
      renderer returning null makes it empty. */
  lemma NullRenderIsEmpty(engine: string, atts: map<string, string>, content: Option<string>, globalContext: Context)
    ensures RenderShortcode(engine, atts, content, globalContext, (p, c, e) => None, (p, c, e) => None) == ""
  {
  }

  /** Each handler renders with its own engine: the twig handler renders
      the same as the shared body with `twig`, and likewise for blade and
      latte, so a renderer that records the engine sees the tag. */
  lemma HandlersUseOwnEngine(atts: map<string, string>, content: Option<string>, globalContext: Context)
    requires "template" in atts && Truthy(atts["template"])
    ensures RenderTwigShortcode(atts, content, globalContext, (p, c, e) => Some(e), (p, c, e) => Some(e)) == "twig"
    ensures RenderBladeShortcode(atts, content, globalContext, (p, c, e) => Some(e), (p, c, e) => Some(e)) == "blade"
    ensures RenderLatteShortcode(atts, content, globalContext, (p, c, e) => Some(e), (p, c, e) => Some(e)) == "latte"
  {
  }
}
