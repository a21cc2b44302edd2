/** One nag (`performNag`, src/gpt-nagger.ts:73-158): capture the screen,
    ask the chat model about it, and speak the reply unless it is the
    all-clear. The external calls are recorded as effects in the order they
    are made; what the chat model answers is an input. */
module NagStep {
  import opened Js
  import opened Config
  import opened History
  import opened Prompt
  import opened Sentinel

  const CHAT_MODEL := "gpt-4-vision-preview"
  const SPEECH_MODEL := "tts-1"
  const VOICE := "nova"
  const DATA_URI_PREFIX := "data:image/png;base64,"

  /** An external call made by the script. A chat completion is recorded
      by what its message list is built from (the goal, the history as it
      stood, the relative-time label and the screenshot's data URI);
      `Messages` gives the list itself. */
  datatype Effect =
    | Exec(command: string)
    | ChatCompletion(model: string, goal: string, history: seq<Nag>, ago: string, screenshot: string)
    | Speech(model: string, voice: string, input: string)
    | WriteSpeech(path: string)
    | Sleep(ms: nat)

  /** The messages a chat completion call sends. */
  function Messages(e: Effect): seq<Message>
    requires e.ChatCompletion?
  {
    Request(e.goal, e.history, e.ago, e.screenshot)
  }

  /** What a nag hands back to the loop, and the calls it made. */
  datatype NagOutcome = NagOutcome(effects: seq<Effect>, text: Option<string>, screenshotDataUri: string)

  /** The data URI of a PNG screenshot whose base64 encoding is `base64`
      (src/gpt-nagger.ts:160-164); the encoding itself is not modelled. */
  function EncodeImage(base64: string): (uri: string)
    ensures |uri| == |DATA_URI_PREFIX| + |base64|
    ensures uri[..|DATA_URI_PREFIX|] == DATA_URI_PREFIX && uri[|DATA_URI_PREFIX|..] == base64
  {
    DATA_URI_PREFIX + base64
  }

  /** The payload of a PNG data URI, if `uri` is one. */
  function DecodeImage(uri: string): Option<string>
  {
    if |uri| >= |DATA_URI_PREFIX| && uri[..|DATA_URI_PREFIX|] == DATA_URI_PREFIX
    then Some(uri[|DATA_URI_PREFIX|..])
    else None
  }

  /** The screenshot handed back is exactly the one captured. */
  lemma EncodeImageRoundTrip(base64: string)
    ensures DecodeImage(EncodeImage(base64)) == Some(base64)
  {
  }

  /** One nag given the history, the captured screenshot's base64 encoding,
      the chat model's reply, and the relative-time label stamped on the
      replayed nags. */
  function PerformNag(cfg: Config, history: seq<Nag>, base64: string, reply: string, ago: string): NagOutcome
  {
    var screenshot := EncodeImage(base64);
    var asked := [Exec(CaptureCommand(cfg)),
                  ChatCompletion(CHAT_MODEL, cfg.goal, history, ago, screenshot)];
    if Test(reply) then
      NagOutcome(asked, None, screenshot)
    else
      NagOutcome(asked + [Speech(SPEECH_MODEL, VOICE, reply), WriteSpeech(cfg.speechPath), Exec(PlayCommand(cfg))],
                 Some(reply), screenshot)
  }

  /** Every nag captures the screen and then asks the chat model about the
      request built from the goal, the history and that screenshot. An
      all-clear reply comes back as `null` with the screenshot and nothing is
      spoken; any other reply comes back unchanged, after it was synthesised,
      written to the speech file and played, in that order. */
  lemma PerformNagSpec(cfg: Config, history: seq<Nag>, base64: string, reply: string, ago: string)
    ensures var o := PerformNag(cfg, history, base64, reply, ago);
      && DecodeImage(o.screenshotDataUri) == Some(base64)
      && |o.effects| >= 2
      && o.effects[0] == Exec(CaptureCommand(cfg))
      && o.effects[1].ChatCompletion? && o.effects[1].model == CHAT_MODEL
      && Messages(o.effects[1]) == Request(cfg.goal, history, ago, o.screenshotDataUri)
      && (Test(reply) <==> o.text.None?)
      && (Test(reply) ==> |o.effects| == 2)
      && (!Test(reply) ==>
            && o.text == Some(reply)
            && o.effects[2..] == [Speech(SPEECH_MODEL, VOICE, reply), WriteSpeech(cfg.speechPath), Exec(PlayCommand(cfg))])
  {
    EncodeImageRoundTrip(base64);
  }

  /** What a nag hands back to the loop depends only on the reply and the
      screenshot: `null` for the all-clear, the reply itself otherwise. */
  lemma NagResult(cfg: Config, history: seq<Nag>, base64: string, reply: string, ago: string)
    ensures PerformNag(cfg, history, base64, reply, ago).text == (if Test(reply) then None else Some(reply))
    ensures PerformNag(cfg, history, base64, reply, ago).screenshotDataUri == EncodeImage(base64)
  {
  }

  /** How many speech syntheses a sequence of effects contains. */
  function SpeechCount(effects: seq<Effect>): (n: nat)
    ensures n <= |effects|
  {
    if effects == [] then 0
    else (if effects[0].Speech? then 1 else 0) + SpeechCount(effects[1..])
  }

  lemma {:induction false} SpeechCountAppend(a: seq<Effect>, b: seq<Effect>)
    ensures SpeechCount(a + b) == SpeechCount(a) + SpeechCount(b)
  {
    if a == [] {
      assert a + b == b;
    } else {
      assert (a + b)[1..] == a[1..] + b;
      SpeechCountAppend(a[1..], b);
    }
  }

  /** A nag speaks exactly once when the reply is not the all-clear, and
      not at all when it is. */
  lemma SpeaksUnlessAllClear(cfg: Config, history: seq<Nag>, base64: string, reply: string, ago: string)
    ensures SpeechCount(PerformNag(cfg, history, base64, reply, ago).effects) == if Test(reply) then 0 else 1
  {
    var o := PerformNag(cfg, history, base64, reply, ago);
    var asked := o.effects[..2];
    assert SpeechCount(asked) == 0 by {
      assert asked[1..][1..] == [];
    }
    if !Test(reply) {
      var tail := o.effects[2..];
      assert o.effects == asked + tail;
      SpeechCountAppend(asked, tail);
      assert tail[0].Speech? && !tail[1].Speech? && !tail[2].Speech?;
      assert SpeechCount(tail[2..]) == 0 by {
        assert tail[2..][1..] == [];
      }
      assert SpeechCount(tail[1..]) == SpeechCount(tail[2..]) by {
        assert tail[1..][1..] == tail[2..];
      }
    } else {
      assert o.effects == asked;
    }
  }
}
