/**
 * The step's resolved inputs (lib/step/config.go). stepconf.Secret values
 * are plain strings here; the env tags are read by stepconf, which is not
 * part of this model.
 */
module StepConfig {

  datatype Config = Config(
    debug: bool,
    // Message
    webhookURL: string,
    webhookURLOnError: string,
    apiToken: string,
    channel: string,
    channelOnError: string,
    text: string,
    textOnError: string,
    iconEmoji: string,
    iconEmojiOnError: string,
    iconURL: string,
    iconURLOnError: string,
    linkNames: bool,
    username: string,
    usernameOnError: string,
    threadTs: string,
    threadTsOnError: string,
    replyBroadcast: bool,
    replyBroadcastOnError: bool,
    // Attachment
    color: string,
    colorOnError: string,
    preText: string,
    preTextOnError: string,
    authorName: string,
    title: string,
    titleOnError: string,
    titleLink: string,
    message: string,
    messageOnError: string,
    imageURL: string,
    imageURLOnError: string,
    thumbURL: string,
    thumbURLOnError: string,
    footer: string,
    footerIcon: string,
    timeStamp: bool,
    fields: string,
    buttons: string,
    // Step outputs
    threadTsOutputVariableName: string
  )
}
