/**
 * The AI animation suggestions. The backend that would call an AI service
 * is not connected yet, so the hook answers with rule-based placeholder
 * suggestions: an entrance animation for the chosen mode and, for very
 * colourful logos, a colour pulse.
 *
 * Whether the backend actor is initialised is a parameter of the model;
 * the provider only changes the wording of the first description.
 */
module AIRecommendations {
  import opened Base
  import opened AnimationModel
  import opened Recommendations
  import opened LogoImage

  datatype Provider = OpenAI | Google

  /** One keyframe of a suggestion; absent fields are left to the animation. */
  datatype AIKeyframe = AIKeyframe(
    time: real, position: Option<seq<real>>, rotation: Option<seq<real>>, scale: Option<real>, opacity: Option<real>)

  datatype AIEffects = AIEffects(glow: Option<bool>, particles: Option<bool>, shadow: Option<real>)

  datatype Timing = Timing(duration: real, easing: string)

  /** `AIAnimationRecommendation` */
  datatype AIRecommendation = AIRecommendation(
    title: string, description: string, priority: Priority, keyframes: seq<AIKeyframe>,
    effects: AIEffects, timing: Timing)

  /** `provider === 'openai' ? 'ChatGPT' : 'Gemini'` */
  function ProviderName(provider: Provider): string
  {
    if provider == OpenAI then "ChatGPT" else "Gemini"
  }

  function RotationDescription(provider: Provider): string
  {
    "AI-powered " + ProviderName(provider) + RotationSuggestion
  }

  function FadeDescription(provider: Provider): string
  {
    "AI-powered " + ProviderName(provider) + FadeSuggestion
  }

  const EaseOutCubic := "easeOutCubic"
  const EaseOutQuad := "easeOutQuad"
  const EaseInOutSine := "easeInOutSine"
  const RotationSuggestion := " suggests a smooth rotation entry based on your logo's geometry"
  const FadeSuggestion := " suggests a gentle entrance animation for 2D mode"
  const PulseDescription := "Your colorful logo would benefit from a pulsing glow effect"

  /** The 3D entrance: half a turn about the vertical axis while growing from half size and fading in, over one second. */
  function RotationEntry(provider: Provider): (r: AIRecommendation)
    ensures r.title == "Dynamic Rotation Entry" && r.priority == High
    ensures |r.keyframes| == 2 && r.keyframes[0].time == 0.0 && r.keyframes[1].time == 1.0
    ensures r.keyframes[0].rotation == Some([0.0, 0.0, 0.0]) && r.keyframes[1].rotation == Some([0.0, Pi, 0.0])
    ensures r.keyframes[0].scale == Some(0.5) && r.keyframes[1].scale == Some(1.0)
    ensures r.keyframes[0].opacity == Some(0.0) && r.keyframes[1].opacity == Some(1.0)
    ensures r.effects == AIEffects(Some(true), None, Some(0.5))
  {
    AIRecommendation(
      "Dynamic Rotation Entry",
      RotationDescription(provider),
      High,
      [AIKeyframe(0.0, None, Some([0.0, 0.0, 0.0]), Some(0.5), Some(0.0)),
       AIKeyframe(1.0, None, Some([0.0, Pi, 0.0]), Some(1.0), Some(1.0))],
      AIEffects(Some(true), None, Some(0.5)),
      Timing(1.0, EaseOutCubic))
  }

  /** The 2D entrance: rising into place on the plane while growing and fading in; glow only for bright logos. */
  function FadeAndScale(analysis: LogoAnalysis, provider: Provider): (r: AIRecommendation)
    ensures r.title == "Smooth Fade & Scale" && r.priority == High
    ensures |r.keyframes| == 2 && r.keyframes[0].time == 0.0 && r.keyframes[1].time == 1.5
    ensures forall k :: k in r.keyframes ==> k.rotation.None? && k.position.Some? && |k.position.value| == 2
    ensures r.effects.glow == Some(analysis.brightness > 0.5) && r.effects.particles.None?
  {
    AIRecommendation(
      "Smooth Fade & Scale",
      FadeDescription(provider),
      High,
      [AIKeyframe(0.0, Some([0.0, -2.0]), None, Some(0.8), Some(0.0)),
       AIKeyframe(1.5, Some([0.0, 0.0]), None, Some(1.0), Some(1.0))],
      AIEffects(Some(analysis.brightness > 0.5), None, Some(0.3)),
      Timing(1.5, EaseOutQuad))
  }

  /** The colour pulse: no keyframes, glow on, particles only in 3D. */
  function ColorPulse(workflowMode: RenderMode): (r: AIRecommendation)
    ensures r.title == "Vibrant Color Pulse" && r.priority == Medium
    ensures r.keyframes == []
    ensures r.effects.glow == Some(true) && r.effects.particles == Some(workflowMode == Mode3D)
  {
    AIRecommendation(
      "Vibrant Color Pulse",
      PulseDescription,
      Medium,
      [],
      AIEffects(Some(true), Some(workflowMode == Mode3D), None),
      Timing(2.0, EaseInOutSine))
  }

  /**
   * `generatePlaceholderRecommendations(analysis, workflowMode, provider)`:
   * the entrance for the mode, then the colour pulse when the colourfulness
   * exceeds 0.6.
   */
  method GeneratePlaceholderRecommendations(analysis: LogoAnalysis, workflowMode: RenderMode, provider: Provider)
    returns (recommendations: seq<AIRecommendation>)
    ensures 1 <= |recommendations| <= 2 && recommendations[0].priority == High
    ensures recommendations[0] == if workflowMode == Mode3D then RotationEntry(provider) else FadeAndScale(analysis, provider)
    ensures |recommendations| == 2 <==> analysis.colorfulness > 0.6
    ensures |recommendations| == 2 ==> recommendations[1] == ColorPulse(workflowMode)
  {
    if workflowMode == Mode3D {
      recommendations := [RotationEntry(provider)];
    } else {
      recommendations := [FadeAndScale(analysis, provider)];
    }
    if analysis.colorfulness > 0.6 {
      recommendations := recommendations + [ColorPulse(workflowMode)];
    }
  }

  const ActorMissingMessage := "Backend actor not initialized"

  /** The suggestion store (`useAIAnimationRecommendations`). */
  class AIRecommendationStore {
    var isAnalyzing: bool
    var error: Option<string>
    var recommendations: seq<AIRecommendation>

    constructor()
      ensures !isAnalyzing && error == None && recommendations == []
    {
      isAnalyzing := false;
      error := None;
      recommendations := [];
    }

    /**
     * `generateRecommendations(logoAnalysis, workflowMode, provider)`: clears
     * the error and the previous suggestions, then answers with the
     * placeholders, or with nothing and an error when no backend actor is
     * available. It always ends with the analysing flag down.
     */
    method GenerateRecommendations(logoAnalysis: LogoAnalysis, workflowMode: RenderMode, provider: Provider, actorReady: bool)
      returns (result: seq<AIRecommendation>)
      modifies this
      ensures !isAnalyzing
      ensures !actorReady ==> result == [] && error == Some(ActorMissingMessage) && recommendations == []
      ensures actorReady ==> error == None && recommendations == result && 1 <= |result| <= 2
      ensures actorReady ==> result[0].priority == High && (|result| == 2 <==> logoAnalysis.colorfulness > 0.6)
      ensures actorReady ==>
        result[0] == if workflowMode == Mode3D then RotationEntry(provider) else FadeAndScale(logoAnalysis, provider)
      ensures actorReady && |result| == 2 ==> result[1] == ColorPulse(workflowMode)
    {
      isAnalyzing := true;
      error := None;
      recommendations := [];
      if !actorReady {
        error := Some(ActorMissingMessage);
        result := [];
      } else {
        result := GeneratePlaceholderRecommendations(logoAnalysis, workflowMode, provider);
        recommendations := result;
      }
      isAnalyzing := false;
    }
  }
}
