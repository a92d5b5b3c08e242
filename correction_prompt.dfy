/** CorrectionPrompt: the system/user prompt pair sent to the correction model. */
module Prompt {

  datatype CorrectionPromptPair = CorrectionPromptPair(system: string, user: string)

  /**
   * The fixed instructions (Traditional Chinese): fix homophone errors in
   * speech-recognition output, add punctuation, keep the meaning and the
   * original language, keep embedded English, and answer with the corrected
   * text only.
   */
  const SystemPrompt: string := "你是一個語音辨識後處理助手。你的任務是修正語音辨識（ASR）的輸出文字。\n\n規則：\n1. 修正明顯的同音錯字（例如：「在」vs「再」、「的」vs「得」vs「地」）\n2. 補上適當的標點符號\n3. 不要改變原意或添加原文沒有的內容\n4. 不要翻譯，保持原始語言（繁體中文為主）\n5. 如果有中英夾雜，保留英文部分\n6. 只回傳修正後的文字，不要加任何解釋"

  /** Total: the user part is the transcription itself, the system part the fixed text. */
  function Build(rawTranscription: string): (pair: CorrectionPromptPair)
    ensures pair.user == rawTranscription
    ensures pair.system == SystemPrompt
    ensures |pair.system| > 0
  {
    CorrectionPromptPair(SystemPrompt, rawTranscription)
  }

  /** The system part does not depend on the transcription. */
  lemma SystemPartIsConstant(a: string, b: string)
    ensures Build(a).system == Build(b).system
    ensures Build(a) == Build(b) <==> a == b
  {
  }
}
