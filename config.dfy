/** Process-wide settings, resolved once at start-up from the environment,
    each with a literal default (src/gpt-nagger.ts:21-27). */
module Config {

  /** Delay between two nags, in milliseconds. It is a constant of the
      script and is not read from the environment. */
  const INTERVAL: nat := 30 * 1000

  const DEFAULT_GOAL := "write scripts"
  const DEFAULT_CAPTURE_CMD := "screencapture -x"
  const DEFAULT_PLAY_CMD := "afplay"

  datatype Config = Config(
    goal: string,
    imagePath: string,
    speechPath: string,
    captureCmd: string,
    playCmd: string)

  /** `process.env[key] || fallback`: an unset variable and a variable set to
      the empty string both give the fallback. */
  function Setting(env: map<string, string>, key: string, fallback: string): (v: string)
    ensures key in env && env[key] != "" ==> v == env[key]
    ensures key !in env || env[key] == "" ==> v == fallback
    ensures fallback != "" ==> v != ""
  {
    if key in env && env[key] != "" then env[key] else fallback
  }

  /** The settings for environment `env`; `root` is the directory one level
      above the script's own, against which the default file paths resolve. */
  function Load(env: map<string, string>, root: string): Config
  {
    Config(
      Setting(env, "PROMPT_GOAL", DEFAULT_GOAL),
      Setting(env, "IMAGE_PATH", root + "/screenshot.png"),
      Setting(env, "SPEECH_PATH", root + "/speech.mp3"),
      Setting(env, "SCREEN_CAPTURE_CMD", DEFAULT_CAPTURE_CMD),
      Setting(env, "PLAY_SPEECH_CMD", DEFAULT_PLAY_CMD))
  }

  /** The shell command that captures the screen into the image file. */
  function CaptureCommand(c: Config): string
  {
    c.captureCmd + " " + c.imagePath
  }

  /** The shell command that plays the speech file. */
  function PlayCommand(c: Config): string
  {
    c.playCmd + " " + c.speechPath
  }

  /** With nothing set, the script works toward "write scripts", captures
      with `screencapture -x` and plays with `afplay`, on files beside the
      script's directory. */
  lemma DefaultsWhenUnset(root: string)
    ensures Load(map[], root).goal == "write scripts"
    ensures CaptureCommand(Load(map[], root)) == "screencapture -x " + root + "/screenshot.png"
    ensures PlayCommand(Load(map[], root)) == "afplay " + root + "/speech.mp3"
  {
  }

  /** Setting a variable to the empty string is the same as leaving it unset. */
  lemma EmptyIsUnset(env: map<string, string>, key: string, root: string)
    ensures Load(env[key := ""], root) == Load(env - {key}, root)
  {
  }
}
