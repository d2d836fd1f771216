/** The records the application passes around (the TypeScript interfaces
    `Story`, `Character`, `Scene`, `Script` and the enum `AppStep`), and the
    two wrappers used for absent values and for calls that may throw. */
module Types {

  /** A value that may be missing (`null` or `undefined` in the source). */
  datatype Option<T> = None | Some(value: T)

  /** The outcome of a call that may throw: `Err(msg)` carries the text of the
      thrown value (`String(error)` for a raw failure, `error.message` for an
      `Error` built by the application). */
  datatype Outcome<T> = Ok(value: T) | Err(msg: string)

  datatype Story = Story(id: int, title: string, summary: string)

  /** A story as the generation service returns it, before the caller numbers it. */
  datatype StoryDraft = StoryDraft(title: string, summary: string)

  /** `role` is declared as a string, but the characters the application
      builds from a generation response never set it: it is `None` there. */
  datatype Character = Character(id: int, name: string, description: string, prompt: string, role: Option<string>)

  /** A character as the generation service returns it, before the caller numbers it. */
  datatype CharacterDraft = CharacterDraft(name: string, description: string, prompt: string)

  datatype Dialogue = Dialogue(character: string, line: string)

  datatype Scene = Scene(id: int, description: string, dialogues: seq<Dialogue>, veoPrompt: string, charactersPresent: seq<string>)

  datatype Script = Script(summary: string, scenes: seq<Scene>)

  /** The three wizard steps, numbered 1, 2, 3 in the source. */
  datatype AppStep = StoryIdeas | CharacterCreation | ScriptDisplay
}
