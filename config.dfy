/**
 * The default values of the application settings (app/config.py:15-22).
 * Loading them from the environment or a `.env` file is not modelled.
 */
module Config {
  const ProjectName: string := "AI Text Detection API"
  const ModelName: string := "muyiiwaa/ai_detect_modernbert"
  const ModelMaxLength: nat := 512
  /** `settings.DEVICE` before `_determine_device` overwrites it. */
  const DefaultDevice: string := "cpu"
}
